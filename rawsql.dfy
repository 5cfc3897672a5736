/**
 * `RawSqlStrategy`: the copy statement is a template the caller supplies, and
 * the schema changes are raw DDL statements. Both name their tables through the
 * placeholders `:new_table_name` and `:table_name`, which are replaced by the
 * backtick-quoted names; the template's leading `INSERT` becomes the verb the
 * engine asks for.
 */
module RawSql {
  import opened Wrappers
  import opened Text
  import opened Db
  import Config
  import Names

  /** `\s` in a Ruby regular expression: space, tab, line feed, carriage return,
      form feed, vertical tab. */
  predicate IsSpace(c: char) {
    c == ' ' || c == '\t' || c == '\n' || c == '\r' || c == '\U{000C}' || c == '\U{000B}'
  }

  /** The length of the longest prefix of `s` that is white space. */
  function SpacePrefix(s: string): (k: nat)
    ensures k <= |s|
    ensures forall i :: 0 <= i < k ==> IsSpace(s[i])
    ensures k < |s| ==> !IsSpace(s[k])
    decreases |s|
  {
    if s == [] || !IsSpace(s[0]) then 0 else 1 + SpacePrefix(s[1..])
  }

  /** ASCII upper case, as case-insensitive matching compares letters. */
  function Upcase(c: char): char {
    if 'a' <= c <= 'z' then (c as int - 32) as char else c
  }

  /** `s[k..]` starts with `INSERT`, in any mix of cases. */
  predicate InsertAt(s: string, k: nat) {
    k + 6 <= |s| && forall i :: 0 <= i < 6 ==> Upcase(s[k + i]) == "INSERT"[i]
  }

  /** `sql.gsub(/\A\s*INSERT/i, verb)`: the white space and the keyword at the start
      become `verb`; text without a leading `INSERT` is left alone. */
  function ReplaceLeadingInsert(s: string, verb: string): (r: string)
    ensures !InsertAt(s, SpacePrefix(s)) ==> r == s
  {
    var k := SpacePrefix(s);
    if InsertAt(s, k) then verb + s[k + 6..] else s
  }

  /** A text made of white space, the keyword in any case and a rest becomes the
      verb followed by the rest. */
  lemma LeadingInsertReplaced(ws: string, keyword: string, rest: string, verb: string)
    requires forall i :: 0 <= i < |ws| ==> IsSpace(ws[i])
    requires |keyword| == 6 && forall i :: 0 <= i < 6 ==> Upcase(keyword[i]) == "INSERT"[i]
    ensures ReplaceLeadingInsert(ws + keyword + rest, verb) == verb + rest
  {
    var s := ws + keyword + rest;
    assert !IsSpace(keyword[0]) by {
      assert Upcase(keyword[0]) == 'I';
    }
    SpacePrefixOf(ws, keyword + rest);
    assert s == ws + (keyword + rest);
    assert SpacePrefix(s) == |ws|;
    forall i | 0 <= i < 6 ensures s[|ws| + i] == keyword[i] { }
    assert InsertAt(s, |ws|);
    assert s[|ws| + 6..] == rest;
  }

  lemma {:induction false} SpacePrefixOf(ws: string, t: string)
    requires forall i :: 0 <= i < |ws| ==> IsSpace(ws[i])
    requires t != [] && !IsSpace(t[0])
    ensures SpacePrefix(ws + t) == |ws|
    decreases |ws|
  {
    if ws == [] {
      assert ws + t == t;
    } else {
      assert (ws + t)[1..] == ws[1..] + t;
      SpacePrefixOf(ws[1..], t);
    }
  }

  /** Rewriting the verb twice is rewriting it once, for the verbs the engines use. */
  lemma RewriteIdempotent(s: string, verb: string)
    requires verb == "INSERT" || verb == "REPLACE"
    ensures ReplaceLeadingInsert(ReplaceLeadingInsert(s, verb), verb) == ReplaceLeadingInsert(s, verb)
  {
    var k := SpacePrefix(s);
    if InsertAt(s, k) {
      var rest := s[k + 6..];
      assert ReplaceLeadingInsert(s, verb) == verb + rest;
      VerbStays(verb, rest);
    }
  }

  /** A text that starts with one of the verbs is rewritten to itself. */
  lemma VerbStays(verb: string, rest: string)
    requires verb == "INSERT" || verb == "REPLACE"
    ensures ReplaceLeadingInsert(verb + rest, verb) == verb + rest
  {
    if verb == "INSERT" {
      forall i | 0 <= i < 6 ensures Upcase(verb[i]) == "INSERT"[i] { }
      LeadingInsertReplaced([], verb, rest, verb);
      assert [] + verb + rest == verb + rest;
    } else {
      var t := verb + rest;
      assert t[0] == 'R';
      assert !IsSpace(t[0]);
      assert SpacePrefix(t) == 0;
      assert Upcase(t[0]) != "INSERT"[0];
      assert !InsertAt(t, 0);
    }
  }

  /** `sub_table`: every `:table_name` becomes the quoted table. */
  function SubTable(sql: string, table: string): (r: string)
    ensures !Occurs(sql, ":table_name") ==> r == sql
    ensures ':' !in table && '\\' !in table ==> !Occurs(r, ":table_name")
  {
    QuotedSubstitution(sql, ":table_name", table);
    ReplaceAll(sql, ":table_name", Backtick(table))
  }

  /** `sub_new_table`: every `:new_table_name` becomes the quoted new table. */
  function SubNewTable(sql: string, newTable: string): (r: string)
    ensures !Occurs(sql, ":new_table_name") ==> r == sql
    ensures ':' !in newTable && '\\' !in newTable ==> !Occurs(r, ":new_table_name")
  {
    QuotedSubstitution(sql, ":new_table_name", newTable);
    ReplaceAll(sql, ":new_table_name", Backtick(newTable))
  }

  /** Substituting a quoted name for a placeholder leaves text without the
      placeholder alone, and leaves no placeholder behind when the name holds
      no `:`. */
  lemma QuotedSubstitution(sql: string, p: string, name: string)
    requires p != [] && p[0] == ':' && '`' !in p
    ensures !Occurs(sql, p) ==> ReplaceAll(sql, p, Backtick(name)) == sql
    ensures ':' !in name ==> !Occurs(ReplaceAll(sql, p, Backtick(name)), p)
  {
    if !Occurs(sql, p) {
      ReplaceAllAbsent(sql, p, Backtick(name));
    }
    if ':' !in name {
      ReplaceAllClears(sql, p, Backtick(name));
    }
  }

  /** Each statement with `:new_table_name` substituted, in order. */
  function SubNewTableAll(stmts: seq<string>, newTable: string): (r: seq<string>)
    ensures |r| == |stmts|
    ensures forall i :: 0 <= i < |stmts| ==> r[i] == SubNewTable(stmts[i], newTable)
  {
    seq(|stmts|, i requires 0 <= i < |stmts| => SubNewTable(stmts[i], newTable))
  }

  /** The verb rewrite followed by the two substitutions, in the source's order. */
  function Substituted(template: string, verb: string, table: string, newTable: string): (r: string)
    ensures (!InsertAt(template, SpacePrefix(template)) && !Occurs(template, ":new_table_name") &&
             !Occurs(template, ":table_name")) ==> r == template
  {
    SubTable(SubNewTable(ReplaceLeadingInsert(template, verb), newTable), table)
  }

  lemma BacktickAvoids(name: string, c: char)
    requires c !in name && c != '`'
    ensures c !in Backtick(name)
  {
  }

  /** When the table names hold no `:`, no placeholder is left after the copy
      query's substitution, whatever the template and the verb. */
  lemma NoPlaceholderSurvives(template: string, verb: string, table: string, newTable: string)
    // Ruby's `gsub` reads `\0`, `\&`, `\\` and the like in a replacement string
    // as back-references; names without `\` are copied literally, as `ReplaceAll` does.
    requires ':' !in table && ':' !in newTable && '\\' !in table && '\\' !in newTable
    ensures !Occurs(Substituted(template, verb, table, newTable), ":new_table_name")
    ensures !Occurs(Substituted(template, verb, table, newTable), ":table_name")
  {
    var s0 := ReplaceLeadingInsert(template, verb);
    var s1 := SubNewTable(s0, newTable);
    BacktickAvoids(newTable, ':');
    BacktickAvoids(table, ':');
    ReplaceAllClears(s0, ":new_table_name", Backtick(newTable));
    ReplaceAllClears(s1, ":table_name", Backtick(table));
    if Occurs(SubTable(s1, table), ":new_table_name") {
      ReplaceAllNoNew(s1, ":table_name", Backtick(table), ":new_table_name");
    }
  }

  /** `apply_changes` substitutes the new table only: a `:table_name` in a schema
      change reaches the database as written. */
  lemma ChangeKeepsTablePlaceholder(newTable: string)
    ensures SubNewTable(":table_name", newTable) == ":table_name"
  {
  }

  /** `RawSqlStrategy`, with the table names of `CopyStrategy`. */
  class Strategy {
    const table: string
    const config: Config.Config
    const conn: Connection
    /** The stored `@base_copy_query` template. */
    const template: string
    /** The raw DDL statements run against the new table. */
    const schemaChanges: seq<string>

    constructor (table: string, config: Config.Config, conn: Connection, template: string, schemaChanges: seq<string>)
      ensures this.table == table && this.config == config && this.conn == conn
      ensures this.template == template && this.schemaChanges == schemaChanges
    {
      this.table, this.config, this.conn := table, config, conn;
      this.template, this.schemaChanges := template, schemaChanges;
    }

    function NewTable(): string {
      Names.NewTable(table)
    }

    function OldTable(): string {
      Names.OldTable(table, Names.MigrationName(config))
    }

    /** `base_copy_query(insert_or_replace)`, on the stored template. */
    function CopyQuery(verb: string): (r: string)
      ensures ':' !in table && '\\' !in table ==> !Occurs(r, ":new_table_name") && !Occurs(r, ":table_name")
    {
      var r := Substituted(template, verb, table, NewTable());
      assert ':' !in table && '\\' !in table ==> !Occurs(r, ":new_table_name") && !Occurs(r, ":table_name") by {
        if ':' !in table && '\\' !in table {
          assert ':' !in NewTable() && '\\' !in NewTable();
          NoPlaceholderSurvives(template, verb, table, NewTable());
        }
      }
      r
    }

    /** The statements `apply_changes` runs: each schema change with the new table substituted. */
    function ChangeStatements(): (r: seq<string>)
      ensures |r| == |schemaChanges|
      ensures forall i :: 0 <= i < |r| && !Occurs(schemaChanges[i], ":new_table_name") ==> r[i] == schemaChanges[i]
      ensures ':' !in table && '\\' !in table ==> forall i :: 0 <= i < |r| ==> !Occurs(r[i], ":new_table_name")
    {
      assert ':' !in table && '\\' !in table ==> ':' !in NewTable() && '\\' !in NewTable();
      SubNewTableAll(schemaChanges, NewTable())
    }

    /** `apply_changes`: the schema changes run in list order on the connection,
        each with `:new_table_name` substituted, until one is rejected. */
    method ApplyChanges() returns (r: Outcome<Error>)
      modifies conn`log
      ensures conn.log == old(conn.log) + ExecEvents(Attempted(ChangeStatements(), conn.rejects))
      ensures r == RunOutcome(ChangeStatements(), conn.rejects)
    {
      r := conn.ExecuteEach(ChangeStatements());
    }
  }
}
