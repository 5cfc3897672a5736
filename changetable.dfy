/**
 * `ChangeTableStrategy`: the declarative surface. Every column operation the
 * table block declares reaches `method_missing`, which checks the table name,
 * lets the operation's `register_` hook update the projection, and records the
 * operation for replay against the new table.
 */
module ChangeTable {
  import opened Wrappers
  import opened Db
  import opened Projection

  class Strategy {
    /** The table every declaration must name. */
    const tableName: string
    /** `changes`: the accepted declarations, in declaration order. */
    var changes: seq<Change>
    /** `renames`: the projection the hooks maintain. */
    var renames: Renames

    /** The projection is always the replay of the recorded declarations. */
    ghost predicate Valid()
      reads this
    {
      renames == Replay(map[], changes)
    }

    /** `initialize(table_name, connection)` before the block runs: nothing recorded,
        every column copied under its own name. */
    constructor (tableName: string)
      ensures Valid() && this.tableName == tableName && changes == [] && renames == map[]
    {
      this.tableName := tableName;
      changes := [];
      renames := map[];
    }

    /** `method_missing(method, table_name, *args)`: a declaration naming another
        table raises `TableNameMismatchError`, and one whose hook rejects its
        arguments raises `ArgumentError`; neither records anything. Otherwise the
        hook updates the projection and the declaration is appended to `changes`. */
    method Declare(operation: string, table: string, args: seq<string>) returns (r: Outcome<Error>)
      requires Valid()
      modifies this
      ensures Valid()
      ensures table != tableName ==>
        r == Fail(TableNameMismatch(tableName, table)) && changes == old(changes) && renames == old(renames)
      ensures table == tableName && !Fits(operation, args) ==>
        r.Fail? && changes == old(changes) && renames == old(renames)
      ensures table == tableName && Fits(operation, args) ==>
        r == Pass && changes == old(changes) + [Change(operation, args)] &&
        Register(old(renames), operation, args) == Ok(renames)
    {
      if table != tableName {
        return Fail(TableNameMismatch(tableName, table));
      }
      var registered := Register(renames, operation, args);
      if registered.Err? {
        return Fail(registered.error);
      }
      ReplayStep(map[], changes, Change(operation, args));
      renames := registered.value;
      changes := changes + [Change(operation, args)];
      r := Pass;
    }

    /** `apply_changes(connection, table_name)`: the recorded declarations are sent
        to the connection against `table`, in the order they were declared, until
        the adapter raises on one. */
    method ApplyChanges(conn: Connection, table: string) returns (r: Outcome<Error>)
      modifies conn`log
      ensures conn.log == old(conn.log) + Attempted(SendEvents(changes, table), conn.refusedSends)
      ensures r == SendOutcome(SendEvents(changes, table), conn.refusedSends)
    {
      ghost var calls := SendEvents(changes, table);
      var i := 0;
      while i < |changes|
        invariant 0 <= i <= |changes|
        invariant forall j :: 0 <= j < i ==> calls[j] !in conn.refusedSends
        invariant conn.log == old(conn.log) + calls[..i]
      {
        assert calls[..i + 1] == calls[..i] + [calls[i]];
        r := conn.SendOperation(changes[i].operation, table, changes[i].args);
        if r.Fail? {
          HaltsAt(calls, i, conn.refusedSends);
          return;
        }
        i := i + 1;
      }
      AllClean(calls, conn.refusedSends);
      assert calls[..i] == calls;
      r := Pass;
    }

    /** `copy_sql_for(insert_or_replace, from_table, to_table, columns)`. */
    function CopySqlFor(verb: string, fromTable: string, toTable: string, columns: seq<string>): (r: string)
      reads this
      ensures Valid() ==> r == Projection.CopySqlFor(verb, fromTable, toTable, columns, Replay(map[], changes))
      ensures changes == [] && Valid() ==> r == PlainCopySql(verb, fromTable, toTable, columns)
    {
      Projection.CopySqlFor(verb, fromTable, toTable, columns, renames)
    }
  }
}
