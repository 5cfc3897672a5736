/**
 * `MigrationStrategy`: the other declarative surface, where `method_missing` is
 * an alias of `register_change`. Its column hooks share their names with the
 * table operations and are private, so the `respond_to?` guard never sees them:
 * as written, a declaration is recorded but never reaches the projection.
 */
module Migration {
  import opened Wrappers
  import opened Db
  import opened Projection

  /** `changes.each do |method, args|` destructures a recorded `[method, *args]`,
      so the second block parameter is the first argument alone (nil, spread to
      nothing, when there is none). */
  function ReplayedArgs(args: seq<string>): (r: seq<string>)
    ensures |r| <= 1 && |r| <= |args|
    ensures args != [] ==> r == [args[0]]
  {
    if args == [] then [] else [args[0]]
  }

  /** The connection calls `replay_changes` makes for `changes` against `table`. */
  function ReplayEvents(changes: seq<Change>, table: string): (r: seq<Event>)
    ensures |r| == |changes|
    ensures forall i :: 0 <= i < |changes| ==>
      r[i] == Send(changes[i].operation, table, ReplayedArgs(changes[i].args))
  {
    seq(|changes|, i requires 0 <= i < |changes| => Send(changes[i].operation, table, ReplayedArgs(changes[i].args)))
  }

  class Strategy {
    const tableName: string
    /** `changes`: one `[method, *args]` entry per accepted declaration. */
    var changes: seq<Change>
    var renames: Renames

    constructor (tableName: string)
      ensures this.tableName == tableName && changes == [] && renames == map[]
    {
      this.tableName := tableName;
      changes := [];
      renames := map[];
    }

    /** `register_change(method, table_name, *args)`: a declaration naming another
        table raises `TableNameMismatchError` before anything is recorded; any other
        is appended to `changes`. The projection is left as it was: the hooks are
        private, so `respond_to?(method)` is false for them. */
    method RegisterChange(operation: string, table: string, args: seq<string>) returns (r: Outcome<Error>)
      modifies this`changes
      ensures renames == old(renames)
      ensures table != tableName ==> r == Fail(TableNameMismatch(tableName, table)) && changes == old(changes)
      ensures table == tableName ==> r == Pass && changes == old(changes) + [Change(operation, args)]
    {
      if table != tableName {
        return Fail(TableNameMismatch(tableName, table));
      }
      changes := changes + [Change(operation, args)];
      r := Pass;
    }

    /** The private `rename_column(col, new_name)`. */
    method RenameColumn(col: string, newName: string)
      modifies this`renames
      ensures renames == Projection.RenameColumn(old(renames), col, newName)
    {
      renames := Projection.RenameColumn(renames, col, newName);
    }

    /** The private `remove_column(*column_names)`. */
    method RemoveColumn(cols: seq<string>)
      modifies this`renames
      ensures renames == RemoveColumns(old(renames), cols)
    {
      renames := RemoveColumns(renames, cols);
    }

    /** The private `remove_timestamps`. */
    method RemoveTimestamps()
      modifies this`renames
      ensures renames == Projection.RemoveTimestamps(old(renames))
    {
      renames := Projection.RemoveTimestamps(renames);
    }

    /** `replay_changes(connection, table_name)`: one connection call per recorded
        change, in order, with the arguments the block destructuring leaves,
        until the adapter raises on one. */
    method ReplayChanges(conn: Connection, table: string) returns (r: Outcome<Error>)
      modifies conn`log
      ensures conn.log == old(conn.log) + Attempted(ReplayEvents(changes, table), conn.refusedSends)
      ensures r == SendOutcome(ReplayEvents(changes, table), conn.refusedSends)
    {
      ghost var calls := ReplayEvents(changes, table);
      var i := 0;
      while i < |changes|
        invariant 0 <= i <= |changes|
        invariant forall j :: 0 <= j < i ==> calls[j] !in conn.refusedSends
        invariant conn.log == old(conn.log) + calls[..i]
      {
        assert calls[..i + 1] == calls[..i] + [calls[i]];
        r := conn.SendOperation(changes[i].operation, table, ReplayedArgs(changes[i].args));
        if r.Fail? {
          HaltsAt(calls, i, conn.refusedSends);
          return;
        }
        i := i + 1;
      }
      AllClean(calls, conn.refusedSends);
      assert calls[..i] == calls;
      r := Pass;
    }

    /** `copy_sql_for(insert_or_replace, from_table, to_table, columns)`. */
    function CopySqlFor(verb: string, fromTable: string, toTable: string, columns: seq<string>): (r: string)
      reads this
      ensures renames == map[] ==> r == PlainCopySql(verb, fromTable, toTable, columns)
    {
      Projection.CopySqlFor(verb, fromTable, toTable, columns, renames)
    }
  }

  /** The consequence of the private hooks: since the projection stays the
      identity, the copy statement lists every source column on both sides,
      under its own name and in its own order, whatever was declared. */
  lemma {:induction false} IdentityProjection(columns: seq<string>)
    ensures Copied(columns, map[]) == columns
    ensures Destination(columns, map[]) == columns
  {
    CopiedUntouched(columns, map[]);
    var d := Destination(columns, map[]);
    forall i | 0 <= i < |columns| ensures d[i] == columns[i] {
      assert Lookup(map[], columns[i]) == Some(columns[i]);
    }
  }

  /** A replayed declaration that had several arguments loses all but its first:
      `rename_column(t, :a, :b)` is replayed as `rename_column(t, :a)`. */
  lemma ReplayDropsArguments(table: string, col: string, newName: string)
    ensures ReplayEvents([Change("rename_column", [col, newName])], table) ==
      [Send("rename_column", table, [col])]
  {
  }
}
