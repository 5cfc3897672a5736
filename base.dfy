/**
 * `TableMigrator::Base`: the configuration and the memoised pieces a migration
 * is assembled from: the schema change list, the column names read from the
 * connection, the copy template built from them, and the strategy, which falls
 * back to the raw strategy over that template and those changes.
 */
module Base {
  import opened Wrappers
  import opened Text
  import opened Db
  import Config
  import RawSql
  import CopyEngine
  import CopyRuns

  /** `names.map { |n| "`#{n}`" }`. */
  function Quote(cols: seq<string>): (r: seq<string>)
    ensures |r| == |cols|
    ensures forall i :: 0 <= i < |cols| ==> r[i] == Backtick(cols[i])
  {
    seq(|cols|, i requires 0 <= i < |cols| => Backtick(cols[i]))
  }

  /** `%(INSERT INTO :new_table_name (#{columns.join(", ")}) SELECT #{columns.join(", ")} FROM :table_name)`. */
  function Template(columns: seq<string>): (r: string)
    ensures |r| >= 6 && r[..6] == "INSERT"
    ensures forall verb :: RawSql.ReplaceLeadingInsert(r, verb) == verb + r[6..]
    ensures Occurs(r, ":new_table_name") && Occurs(r, ":table_name")
  {
    var list := Join(columns, ", ");
    var c := " (" + list + ") SELECT " + list + " FROM ";
    var rest := " INTO " + ":new_table_name" + c + ":table_name";
    TemplateVerb(rest);
    TemplateMarks(c);
    assert ("INSERT" + rest)[6..] == rest;
    "INSERT" + rest
  }

  /** A text that starts with the keyword the verb rewrite replaces. */
  lemma TemplateVerb(rest: string)
    ensures forall verb :: RawSql.ReplaceLeadingInsert("INSERT" + rest, verb) == verb + rest
  {
    forall verb ensures RawSql.ReplaceLeadingInsert("INSERT" + rest, verb) == verb + rest {
      forall i | 0 <= i < 6 ensures RawSql.Upcase("INSERT"[i]) == "INSERT"[i] { }
      RawSql.LeadingInsertReplaced([], "INSERT", rest, verb);
      assert [] + "INSERT" + rest == "INSERT" + rest;
    }
  }

  /** The default template holds both placeholders. */
  lemma TemplateMarks(c: string)
    ensures var r := "INSERT" + (" INTO " + ":new_table_name" + c + ":table_name");
      Occurs(r, ":new_table_name") && Occurs(r, ":table_name")
  {
    var r := "INSERT" + (" INTO " + ":new_table_name" + c + ":table_name");
    assert StartsWith(r[12..], ":new_table_name");
    OccursInSuffix(r, 12, ":new_table_name");
    var k := |r| - 11;
    assert r[k..] == ":table_name";
    assert StartsWith(r[k..], ":table_name");
    OccursInSuffix(r, k, ":table_name");
  }

  /** The copy statement the engine runs when the raw strategy was built from the
      default template: both placeholders hold the quoted names, the verb is the
      one asked for, and the same quoted column list stands in the INSERT and the
      SELECT part. Names and verb are assumed free of `:`. */
  lemma CopyStatementShape(cols: seq<string>, verb: string, table: string, newTable: string)
    requires ':' !in verb && ':' !in table && ':' !in newTable
    requires forall i :: 0 <= i < |cols| ==> ':' !in cols[i]
    ensures var columns := Join(Quote(cols), ", ");
      RawSql.Substituted(Template(Quote(cols)), verb, table, newTable) ==
      verb + " INTO " + Backtick(newTable) + " (" + columns + ") SELECT " + columns + " FROM " + Backtick(table)
  {
    var quoted := Quote(cols);
    var columns := Join(quoted, ", ");
    QuotedAvoidColon(cols);
    SubstitutedTemplate(quoted, verb, table, newTable);
    var x := verb + " INTO " + Backtick(newTable);
    Assoc(x, " (" + columns + ") SELECT " + columns, " FROM ");
    Assoc(x, " (" + columns + ") SELECT ", columns);
    Assoc(x, " (" + columns, ") SELECT ");
    Assoc(x, " (", columns);
  }

  /** Both placeholders of the template filled and the verb replaced, with the
      column list kept as one piece. */
  lemma SubstitutedTemplate(quoted: seq<string>, verb: string, table: string, newTable: string)
    requires ':' !in verb && ':' !in table && ':' !in newTable && ':' !in Join(quoted, ", ")
    ensures var c := " (" + Join(quoted, ", ") + ") SELECT " + Join(quoted, ", ") + " FROM ";
      RawSql.Substituted(Template(quoted), verb, table, newTable) ==
      (verb + " INTO ") + Backtick(newTable) + c + Backtick(table)
  {
    var columns := Join(quoted, ", ");
    var c := " (" + columns + ") SELECT " + columns + " FROM ";
    var newName, name := Backtick(newTable), Backtick(table);
    TemplateParts(quoted);
    VerbRewrite(c, verb);
    var s0 := RawSql.ReplaceLeadingInsert(Template(quoted), verb);
    assert s0 == (verb + " INTO ") + ":new_table_name" + c + ":table_name";
    RawSql.BacktickAvoids(newTable, ':');
    SubstituteBoth(verb + " INTO ", c, newName, name);
  }

  lemma Assoc(x: string, y: string, z: string)
    ensures x + (y + z) == x + y + z
  {
  }

  lemma QuotedAvoidColon(cols: seq<string>)
    requires forall i :: 0 <= i < |cols| ==> ':' !in cols[i]
    ensures ':' !in Join(Quote(cols), ", ")
  {
    var quoted := Quote(cols);
    forall i | 0 <= i < |quoted| ensures ':' !in quoted[i] {
      RawSql.BacktickAvoids(cols[i], ':');
    }
    JoinAvoids(quoted, ", ", ':');
  }

  lemma TemplateParts(columns: seq<string>)
    ensures Template(columns) == "INSERT" + " INTO " + ":new_table_name" +
      (" (" + Join(columns, ", ") + ") SELECT " + Join(columns, ", ") + " FROM ") + ":table_name"
  {
    var list := Join(columns, ", ");
    Nest("INSERT" + " INTO " + ":new_table_name", " (", list, ") SELECT ", list, " FROM ");
  }

  lemma Nest(x: string, a: string, b: string, c: string, d: string, f: string)
    ensures x + a + b + c + d + f == x + (a + b + c + d + f)
  {
  }

  /** The template's leading keyword becomes the verb asked for. */
  lemma VerbRewrite(c: string, verb: string)
    ensures RawSql.ReplaceLeadingInsert("INSERT" + " INTO " + ":new_table_name" + c + ":table_name", verb)
      == (verb + " INTO ") + ":new_table_name" + c + ":table_name"
  {
    var rest := " INTO " + ":new_table_name" + c + ":table_name";
    assert "INSERT" + " INTO " + ":new_table_name" + c + ":table_name" == [] + "INSERT" + rest;
    forall i | 0 <= i < 6 ensures RawSql.Upcase("INSERT"[i]) == "INSERT"[i] { }
    RawSql.LeadingInsertReplaced([], "INSERT", rest, verb);
    assert verb + rest == (verb + " INTO ") + ":new_table_name" + c + ":table_name";
  }

  /** Both placeholders, each once and in that order, around text free of `:`. */
  lemma SubstituteBoth(a: string, c: string, newName: string, name: string)
    requires ':' !in a && ':' !in c && ':' !in newName
    ensures ReplaceAll(ReplaceAll(a + ":new_table_name" + c + ":table_name", ":new_table_name", newName), ":table_name", name)
      == a + newName + c + name
  {
    var b := c + ":table_name";
    assert a + ":new_table_name" + c + ":table_name" == a + ":new_table_name" + b;
    ReplaceAllAt(a, b, ":new_table_name", newName);
    // The `:table_name` left is too short to hold `:new_table_name`.
    ReplaceAllSkips(c, ":table_name", ":new_table_name", newName);
    assert ReplaceAll(":table_name", ":new_table_name", newName) == ":table_name";
    assert a + newName + b == (a + newName + c) + ":table_name" + "";
    ReplaceAllAt(a + newName + c, "", ":table_name", name);
    assert ReplaceAll("", ":table_name", name) == "";
  }

  class Migrator {
    const table: string
    const config: Config.Config
    const conn: Connection
    var schemaChangesMemo: Option<seq<string>>
    var columnNamesMemo: Option<seq<string>>
    var quotedMemo: Option<seq<string>>
    var baseCopyQueryMemo: Option<string>
    /** `@strategy`: set by `change_table` or on first use. */
    var strategy: RawSql.Strategy?

    /** A strategy, once there is one, works on this table, with these options,
        over this connection. */
    ghost predicate Valid()
      reads this
    {
      strategy != null ==> strategy.table == table && strategy.config == config && strategy.conn == conn
    }

    /** `initialize(table, config = {})`: the caller's options over the defaults. */
    constructor (table: string, supplied: Config.Config, conn: Connection)
      ensures Valid()
      ensures this.table == table && this.conn == conn && config == Config.BaseConfig(supplied)
      ensures schemaChangesMemo == None && columnNamesMemo == None && quotedMemo == None
      ensures baseCopyQueryMemo == None && strategy == null
    {
      this.table, this.conn := table, conn;
      config := Config.BaseConfig(supplied);
      schemaChangesMemo, columnNamesMemo, quotedMemo, baseCopyQueryMemo := None, None, None, None;
      strategy := null;
    }

    /** `dry_run?`. */
    predicate DryRun() {
      Config.DryRun(config)
    }

    /** `schema_changes`: `@schema_changes ||= []`. */
    method SchemaChanges() returns (l: seq<string>)
      modifies this`schemaChangesMemo
      ensures schemaChangesMemo == Some(l)
      ensures l == if old(schemaChangesMemo).Some? then old(schemaChangesMemo).value else []
    {
      if schemaChangesMemo.None? {
        schemaChangesMemo := Some([]);
      }
      l := schemaChangesMemo.value;
    }

    /** `column_names`: read from the connection once. */
    method ColumnNames() returns (cols: seq<string>)
      modifies this`columnNamesMemo
      ensures columnNamesMemo == Some(cols)
      ensures cols == if old(columnNamesMemo).Some? then old(columnNamesMemo).value else conn.columns
    {
      if columnNamesMemo.None? {
        columnNamesMemo := Some(conn.columns);
      }
      cols := columnNamesMemo.value;
    }

    /** The names `column_names` gives in the current state. */
    function CurrentColumns(): seq<string>
      reads this
    {
      if columnNamesMemo.Some? then columnNamesMemo.value else conn.columns
    }

    /** The quoted names `quoted_column_names` gives in the current state. */
    function CurrentQuoted(): seq<string>
      reads this
    {
      if quotedMemo.Some? then quotedMemo.value else Quote(CurrentColumns())
    }

    /** `quoted_column_names`: the column names, each in backticks, computed once. */
    method QuotedColumnNames() returns (q: seq<string>)
      modifies this`columnNamesMemo, this`quotedMemo
      ensures quotedMemo == Some(q) && q == old(CurrentQuoted())
      ensures old(quotedMemo).Some? ==> columnNamesMemo == old(columnNamesMemo)
      ensures old(quotedMemo).None? ==> columnNamesMemo == Some(old(CurrentColumns()))
    {
      if quotedMemo.None? {
        var cols := ColumnNames();
        quotedMemo := Some(Quote(cols));
      }
      q := quotedMemo.value;
    }

    /** The template `base_copy_query` gives without arguments in the current state. */
    function CurrentTemplate(): string
      reads this
    {
      if baseCopyQueryMemo.Some? then baseCopyQueryMemo.value else Template(CurrentQuoted())
    }

    /** `base_copy_query(columns = nil)`. Columns passed in are quoted, replace the
        memo and stand on both sides of the statement; without columns an existing
        memo is returned as it is, and otherwise the template is built from the
        table's quoted column names and kept. */
    method BaseCopyQuery(columns: Option<seq<string>>) returns (q: string)
      modifies this`columnNamesMemo, this`quotedMemo, this`baseCopyQueryMemo
      ensures baseCopyQueryMemo == Some(q)
      ensures columns.Some? ==> q == Template(Quote(columns.value)) && quotedMemo == old(quotedMemo)
      ensures columns.None? ==> q == old(CurrentTemplate()) && quotedMemo == Some(old(CurrentQuoted()))
      ensures columns.Some? || old(quotedMemo).Some? ==> columnNamesMemo == old(columnNamesMemo)
      ensures columns.None? && old(quotedMemo).None? ==> columnNamesMemo == Some(old(CurrentColumns()))
    {
      var cols;
      if columns.Some? {
        baseCopyQueryMemo := None;
        cols := Quote(columns.value);
      } else {
        cols := QuotedColumnNames();
      }
      if baseCopyQueryMemo.None? {
        baseCopyQueryMemo := Some(Template(cols));
      }
      q := baseCopyQueryMemo.value;
    }

    /** `change_table(&block)`: `ChangeTableStrategy.new` is called with three
        arguments but takes two, so it raises ArgumentError and no strategy is set. */
    method ChangeTable() returns (r: Outcome<Error>)
      ensures r == Fail(WrongArity("ChangeTableStrategy.new"))
    {
      r := Fail(WrongArity("ChangeTableStrategy.new"));
    }

    /** `strategy`: the raw strategy over the current template and schema changes,
        built on first use and returned unchanged afterwards. */
    method Strategy() returns (s: RawSql.Strategy)
      requires Valid()
      modifies this`strategy, this`schemaChangesMemo, this`columnNamesMemo, this`quotedMemo, this`baseCopyQueryMemo
      ensures Valid() && strategy == s
      ensures old(strategy) != null ==>
        s == old(strategy) &&
        baseCopyQueryMemo == old(baseCopyQueryMemo) && schemaChangesMemo == old(schemaChangesMemo) &&
        quotedMemo == old(quotedMemo) && columnNamesMemo == old(columnNamesMemo)
      ensures old(strategy) == null ==>
        fresh(s) && s.table == table && s.config == config && s.conn == conn &&
        s.template == old(CurrentTemplate()) &&
        s.schemaChanges == (if old(schemaChangesMemo).Some? then old(schemaChangesMemo).value else [])
      ensures old(strategy) == null ==>
        baseCopyQueryMemo == Some(s.template) && schemaChangesMemo == Some(s.schemaChanges) &&
        quotedMemo == Some(old(CurrentQuoted())) &&
        columnNamesMemo == (if old(quotedMemo).Some? then old(columnNamesMemo) else Some(old(CurrentColumns())))
    {
      if strategy == null {
        var template := BaseCopyQuery(None);
        var changes := SchemaChanges();
        strategy := new RawSql.Strategy(table, config, conn, template, changes);
      }
      s := strategy;
    }

    /** `engine`: a copy engine over the strategy, made afresh on each call, or
        the error its construction raises when the table lacks the delta column
        outside a dry run. `elapsedAt` stands for the clock the engine reads. */
    method Engine(elapsedAt: nat -> int) returns (r: Result<CopyEngine.Engine, Error>)
      requires Valid()
      modifies this`strategy, this`schemaChangesMemo, this`columnNamesMemo, this`quotedMemo, this`baseCopyQueryMemo
      ensures Valid() && strategy != null
      ensures old(strategy) != null ==> strategy == old(strategy)
      ensures r.Ok? <==> CopyEngine.Admissible(strategy)
      ensures r.Err? ==> r.error == MissingDeltaColumn(table, CopyEngine.DeltaColumn(config))
      ensures r.Ok? ==>
        fresh(r.value) && r.value.strategy == strategy && r.value.env == CopyEngine.EnvOf(strategy, elapsedAt) &&
        r.value.nextEpoch == None && r.value.clock == 0 && r.value.issued == []
    {
      var s := Strategy();
      r := CopyEngine.Engine.New(s, elapsedAt);
    }

    /** `up!`: the engine's `up!`, from a fresh engine state; what reaches the
        connection is what the copy engine lets through. */
    method Up(elapsedAt: nat -> int) returns (r: Outcome<Error>)
      requires Valid() && conn.Sane()
      modifies this`strategy, this`schemaChangesMemo, this`columnNamesMemo, this`quotedMemo, this`baseCopyQueryMemo, conn`log, conn`epochReads, conn`maxIdReads, conn`idsReads
      ensures Valid() && strategy != null
      ensures old(strategy) != null ==> strategy == old(strategy)
      ensures !CopyEngine.Admissible(strategy) ==>
        r == Fail(MissingDeltaColumn(table, CopyEngine.DeltaColumn(config))) && conn.log == old(conn.log)
      ensures CopyEngine.Admissible(strategy) ==>
        var x := CopyRuns.Up(CopyEngine.EnvOf(strategy, elapsedAt),
                             CopyRuns.St(None, old(conn.maxIdReads), old(conn.epochReads), old(conn.idsReads), 0));
        r == x.out && conn.log == old(conn.log) + Sent(DryRun(), x.events)
    {
      var engine := Engine(elapsedAt);
      if engine.Err? {
        return Fail(engine.error);
      }
      r := engine.value.Up();
    }

    /** `down!`: the engine's `down!`. */
    method Down(elapsedAt: nat -> int) returns (r: Outcome<Error>)
      requires Valid()
      modifies this`strategy, this`schemaChangesMemo, this`columnNamesMemo, this`quotedMemo, this`baseCopyQueryMemo, conn`log
      ensures Valid() && strategy != null
      ensures old(strategy) != null ==> strategy == old(strategy)
      ensures !CopyEngine.Admissible(strategy) ==>
        r == Fail(MissingDeltaColumn(table, CopyEngine.DeltaColumn(config))) && conn.log == old(conn.log)
      ensures CopyEngine.Admissible(strategy) ==>
        var x := CopyRuns.Down(CopyEngine.EnvOf(strategy, elapsedAt));
        r == x.out && conn.log == old(conn.log) + Sent(DryRun(), x.events)
    {
      var engine := Engine(elapsedAt);
      if engine.Err? {
        return Fail(engine.error);
      }
      r := engine.value.Down();
    }
  }
}
