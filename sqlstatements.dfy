/**
 * `SqlStatementsStrategy`: like the raw strategy, but its template and schema
 * changes are filled in after construction, and the table names come in as
 * arguments. `schema_changes` is created empty on first use and the same list
 * is handed out from then on; callers add statements to it.
 */
module SqlStatements {
  import opened Wrappers
  import opened Db
  import opened RawSql

  class Strategy {
    /** `@schema_changes`: nil until first asked for. */
    var schemaChangesMemo: Option<seq<string>>
    /** `base_copy_query` (an attribute that starts nil). */
    var baseCopyQuery: Option<string>

    constructor ()
      ensures schemaChangesMemo == None && baseCopyQuery == None
    {
      schemaChangesMemo := None;
      baseCopyQuery := None;
    }

    /** `schema_changes`: `@schema_changes ||= []`. */
    method SchemaChanges() returns (l: seq<string>)
      modifies this`schemaChangesMemo
      ensures schemaChangesMemo == Some(l)
      ensures old(schemaChangesMemo).Some? ==> l == old(schemaChangesMemo).value
      ensures old(schemaChangesMemo).None? ==> l == []
    {
      if schemaChangesMemo.None? {
        schemaChangesMemo := Some([]);
      }
      l := schemaChangesMemo.value;
    }

    /** `schema_changes << sql`: the caller appends to the list it was handed. */
    method AddSchemaChange(sql: string)
      modifies this`schemaChangesMemo
      ensures schemaChangesMemo.Some?
      ensures schemaChangesMemo.value ==
        (if old(schemaChangesMemo).Some? then old(schemaChangesMemo).value else []) + [sql]
    {
      var l := SchemaChanges();
      schemaChangesMemo := Some(l + [sql]);
    }

    /** `apply_changes(connection, new_table)`: the schema changes run in list order,
        each with `:new_table_name` substituted, until one is rejected. */
    method ApplyChanges(conn: Connection, newTable: string) returns (r: Outcome<Error>)
      modifies this`schemaChangesMemo, conn`log
      ensures schemaChangesMemo == Some(if old(schemaChangesMemo).Some? then old(schemaChangesMemo).value else [])
      ensures conn.log == old(conn.log) +
        ExecEvents(Attempted(SubNewTableAll(schemaChangesMemo.value, newTable), conn.rejects))
      ensures r == RunOutcome(SubNewTableAll(schemaChangesMemo.value, newTable), conn.rejects)
    {
      var l := SchemaChanges();
      r := conn.ExecuteEach(SubNewTableAll(l, newTable));
    }

    /** `copy_sql_for(insert_or_replace, table, new_table, columns)`: the stored
        template with its verb rewritten and both names substituted; the columns
        are not used. A template never set raises NoMethodError on nil. */
    function CopySqlFor(verb: string, table: string, newTable: string, columns: seq<string>): (r: Result<string, Error>)
      reads this
      ensures baseCopyQuery.None? <==> r == Err(NilTemplate)
      ensures r.Ok? ==> r.value == Substituted(baseCopyQuery.value, verb, table, newTable)
    {
      match baseCopyQuery
      case None => Err(NilTemplate)
      case Some(template) => Ok(Substituted(template, verb, table, newTable))
    }

    /** The column list is the caller's affair: it never changes the statement. */
    lemma CopySqlForIgnoresColumns(verb: string, table: string, newTable: string, a: seq<string>, b: seq<string>)
      ensures CopySqlFor(verb, table, newTable, a) == CopySqlFor(verb, table, newTable, b)
    {
    }
  }
}
