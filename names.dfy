/**
 * `CopyStrategy`: the names of the three tables a migration works with. The
 * copy is built under `new_<table>`; the original is kept, after the swap, under
 * `<table>_pre_<migration name>`, or `<table>_old` when no migration name is
 * configured.
 */
module Names {
  import opened Wrappers
  import Config

  /** `new_table`. */
  function NewTable(table: string): (r: string)
    ensures |r| == |table| + 4 && r[..4] == "new_" && r[4..] == table
  {
    "new_" + table
  }

  /** `old_table`, given the migration name when one is configured. */
  function OldTable(table: string, migrationName: Option<string>): (r: string)
    ensures |table| <= |r| && r[..|table|] == table
    ensures migrationName.None? ==> r[|table|..] == "_old"
    ensures migrationName.Some? ==> r[|table|..] == "_pre_" + migrationName.value
  {
    match migrationName
    case Some(name) => table + "_pre_" + name
    case None => table + "_old"
  }

  /** `config[:migration_name]`, when it is truthy, interpolated. */
  function MigrationName(c: Config.Config): (r: Option<string>)
    ensures r.Some? <==> Config.Truthy(Config.Get(c, "migration_name"))
  {
    if Config.Truthy(Config.Get(c, "migration_name")) then Some(Config.ToS(Config.Get(c, "migration_name")))
    else None
  }

  /** The copy's name gives back the table's: no two tables share a copy. */
  lemma NewTableInjective(a: string, b: string)
    requires NewTable(a) == NewTable(b)
    ensures a == b
  {
    assert a == NewTable(a)[4..];
    assert b == NewTable(b)[4..];
  }

  /** With the same migration name, the old name gives back the table's. */
  lemma OldTableInjective(a: string, b: string, migrationName: Option<string>)
    requires OldTable(a, migrationName) == OldTable(b, migrationName)
    ensures a == b
  {
    var x, y := OldTable(a, migrationName), OldTable(b, migrationName);
    var tail := |x| - |a|;
    assert |x| - |b| == tail;
    assert a == x[..|x| - tail];
    assert b == y[..|y| - tail];
  }

  /** The source, the copy and the kept original never share a name, whatever
      the table and the migration name are. */
  lemma {:induction false} NamesDistinct(table: string, migrationName: Option<string>)
    ensures NewTable(table) != table
    ensures OldTable(table, migrationName) != table
    ensures NewTable(table) != OldTable(table, migrationName)
  {
    assert |NewTable(table)| == |table| + 4;
    match migrationName {
      case Some(name) =>
        assert |OldTable(table, migrationName)| == |table| + 5 + |name|;
      case None =>
        var n, o := NewTable(table), OldTable(table, None);
        assert |o| == |table| + 4;
        assert multiset(n) == multiset("new_") + multiset(table);
        assert multiset(o) == multiset(table) + multiset("_old");
        assert multiset("new_")['n'] == 1;
        assert multiset("_old")['n'] == 0;
        assert multiset(n)['n'] != multiset(o)['n'];
    }
  }
}
