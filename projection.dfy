/**
 * The column projection shared by `ChangeTableStrategy` and `MigrationStrategy`:
 * the `renames` hash that the declared column operations update, and the copy
 * statement `copy_sql_for` builds by sending the source's columns through it.
 */
module Projection {
  import opened Wrappers
  import opened Text
  import opened Db

  /** `renames`: an entry `Some(d)` copies a column under the name `d`, an entry
      `None` drops it, and a column without an entry is copied under its own name
      (the hash's default block stores `k.to_s` for `k`). */
  type Renames = map<string, Option<string>>

  /** `renames[col]`. */
  function Lookup(m: Renames, col: string): Option<string> {
    if col in m then m[col] else Some(col)
  }

  /** A column nobody renamed or removed is copied under its own name. */
  lemma LookupDefault(m: Renames, col: string)
    requires col !in m
    ensures Lookup(m, col) == Some(col)
  {
  }

  /** `renames[col.to_s] = new_name.to_s`. */
  function RenameColumn(m: Renames, col: string, newName: string): (r: Renames)
    ensures Lookup(r, col) == Some(newName)
    ensures forall c :: c != col ==> Lookup(r, c) == Lookup(m, c)
  {
    m[col := Some(newName)]
  }

  /** `column_names.each { |col| renames[col.to_s] = nil }`. */
  function RemoveColumns(m: Renames, cols: seq<string>): (r: Renames)
    ensures forall c :: c in cols ==> Lookup(r, c) == None
    ensures forall c :: c !in cols ==> Lookup(r, c) == Lookup(m, c)
    decreases |cols|
  {
    if cols == [] then m else RemoveColumns(m[cols[0] := None], cols[1..])
  }

  /** The two columns `remove_timestamps` drops. */
  const Timestamps: seq<string> := ["created_at", "updated_at"]

  /** `register_remove_column :created_at, :updated_at`. */
  function RemoveTimestamps(m: Renames): (r: Renames)
    ensures Lookup(r, "created_at") == None && Lookup(r, "updated_at") == None
    ensures forall c :: c != "created_at" && c != "updated_at" ==> Lookup(r, c) == Lookup(m, c)
  {
    RemoveColumns(m, Timestamps)
  }

  /** One recorded declaration: the operation's name and its arguments after the table. */
  datatype Change = Change(operation: string, args: seq<string>)

  /** The operations that have a registration hook. */
  predicate HasHook(operation: string) {
    operation == "rename_column" || operation == "remove_column" || operation == "remove_timestamps"
  }

  /** The hook accepts this many arguments (`(col, new_name)`, `(*names)`, `()`). */
  predicate Fits(operation: string, args: seq<string>) {
    (operation == "rename_column" ==> |args| == 2) &&
    (operation == "remove_timestamps" ==> args == [])
  }

  /** The effect of a declaration's hook on the map; operations without a hook leave it alone. */
  function Hook(m: Renames, ch: Change): Renames {
    if ch.operation == "rename_column" && |ch.args| == 2 then RenameColumn(m, ch.args[0], ch.args[1])
    else if ch.operation == "remove_column" then RemoveColumns(m, ch.args)
    else if ch.operation == "remove_timestamps" then RemoveTimestamps(m)
    else m
  }

  /** `send("register_#{method}", *args) if respond_to?("register_#{method}")`: the
      hook's effect, or the ArgumentError it raises before touching the map. */
  function Register(m: Renames, operation: string, args: seq<string>): (r: Result<Renames, Error>)
    ensures !HasHook(operation) ==> r == Ok(m)
    ensures r.Ok? <==> Fits(operation, args)
    ensures operation == "rename_column" && r.Ok? ==>
      Lookup(r.value, args[0]) == Some(args[1]) &&
      forall c :: c != args[0] ==> Lookup(r.value, c) == Lookup(m, c)
    ensures operation == "remove_column" ==>
      forall c :: Lookup(r.value, c) == if c in args then None else Lookup(m, c)
    ensures operation == "remove_timestamps" && r.Ok? ==>
      forall c :: Lookup(r.value, c) == if c in Timestamps then None else Lookup(m, c)
  {
    if Fits(operation, args) then Ok(Hook(m, Change(operation, args)))
    else Err(WrongArity("register_" + operation))
  }

  /** The declaration decides the mapping of `c`. */
  predicate Touches(ch: Change, c: string) {
    (ch.operation == "rename_column" && |ch.args| == 2 && ch.args[0] == c) ||
    (ch.operation == "remove_column" && c in ch.args) ||
    (ch.operation == "remove_timestamps" && c in Timestamps)
  }

  /** What a declaration that touches `c` maps it to. */
  function Effect(ch: Change, c: string): Option<string> {
    if ch.operation == "rename_column" && |ch.args| == 2 && ch.args[0] == c then Some(ch.args[1]) else None
  }

  lemma HookOn(m: Renames, ch: Change, c: string)
    ensures Lookup(Hook(m, ch), c) == if Touches(ch, c) then Effect(ch, c) else Lookup(m, c)
  {
  }

  /** The map after registering `changes` in order. */
  function Replay(m: Renames, changes: seq<Change>): Renames
    decreases |changes|
  {
    if changes == [] then m else Hook(Replay(m, changes[..|changes| - 1]), changes[|changes| - 1])
  }

  lemma ReplayStep(m: Renames, changes: seq<Change>, ch: Change)
    ensures Replay(m, changes + [ch]) == Hook(Replay(m, changes), ch)
  {
    assert (changes + [ch])[..|changes|] == changes;
  }

  /** Registering `a` and then `b` is registering `a + b`. */
  lemma {:induction false} ReplayAppend(m: Renames, a: seq<Change>, b: seq<Change>)
    ensures Replay(m, a + b) == Replay(Replay(m, a), b)
    decreases |b|
  {
    if b == [] {
      assert a + b == a;
    } else {
      var init := b[..|b| - 1];
      assert a + b == (a + init) + [b[|b| - 1]];
      assert b == init + [b[|b| - 1]];
      ReplayStep(m, a + init, b[|b| - 1]);
      ReplayStep(Replay(m, a), init, b[|b| - 1]);
      ReplayAppend(m, a, init);
    }
  }

  /** Declarations that do not touch a column leave its mapping as it was. */
  lemma {:induction false} ReplayUntouched(m: Renames, changes: seq<Change>, c: string)
    requires forall i :: 0 <= i < |changes| ==> !Touches(changes[i], c)
    ensures Lookup(Replay(m, changes), c) == Lookup(m, c)
    decreases |changes|
  {
    if changes != [] {
      var init := changes[..|changes| - 1];
      ReplayUntouched(m, init, c);
      HookOn(Replay(m, init), changes[|changes| - 1], c);
    }
  }

  /** Replay order matters: the last declaration that touches a column decides
      its mapping, overriding every earlier one. */
  lemma ReplayLastWins(m: Renames, changes: seq<Change>, k: nat, c: string)
    requires k < |changes| && Touches(changes[k], c)
    requires forall j :: k < j < |changes| ==> !Touches(changes[j], c)
    ensures Lookup(Replay(m, changes), c) == Effect(changes[k], c)
  {
    var head, tail := changes[..k + 1], changes[k + 1..];
    assert changes == head + tail;
    ReplayAppend(m, head, tail);
    forall i | 0 <= i < |tail| ensures !Touches(tail[i], c) {
      assert tail[i] == changes[k + 1 + i];
    }
    ReplayUntouched(Replay(m, head), tail, c);
    assert head == changes[..k] + [changes[k]];
    ReplayStep(m, changes[..k], changes[k]);
    HookOn(Replay(m, changes[..k]), changes[k], c);
  }

  /** `columns.reject { |c| renames[c].nil? }`: the copied source columns, in order. */
  function Copied(columns: seq<string>, m: Renames): (r: seq<string>)
    ensures |r| <= |columns|
    ensures forall i :: 0 <= i < |r| ==> r[i] in columns && Lookup(m, r[i]).Some?
    ensures forall c :: c in columns && Lookup(m, c).Some? ==> c in r
    decreases |columns|
  {
    if columns == [] then []
    else if Lookup(m, columns[0]).None? then Copied(columns[1..], m)
    else [columns[0]] + Copied(columns[1..], m)
  }

  /** `SendEvents(changes, table)`: each recorded change sent to the connection against `table`. */
  function SendEvents(changes: seq<Change>, table: string): (r: seq<Event>)
    ensures |r| == |changes|
    ensures forall i :: 0 <= i < |changes| ==> r[i] == Send(changes[i].operation, table, changes[i].args)
  {
    seq(|changes|, i requires 0 <= i < |changes| => Send(changes[i].operation, table, changes[i].args))
  }

  /** Dropping columns keeps the survivors in their order: the projection of a
      concatenation is the concatenation of the projections. */
  lemma {:induction false} CopiedAppend(a: seq<string>, b: seq<string>, m: Renames)
    ensures Copied(a + b, m) == Copied(a, m) + Copied(b, m)
    decreases |a|
  {
    if a == [] {
      assert a + b == b;
    } else {
      assert (a + b)[0] == a[0];
      assert (a + b)[1..] == a[1..] + b;
      CopiedAppend(a[1..], b, m);
    }
  }

  /** With no column renamed or removed, every column is copied. */
  lemma {:induction false} CopiedUntouched(columns: seq<string>, m: Renames)
    requires forall i :: 0 <= i < |columns| ==> columns[i] !in m
    ensures Copied(columns, m) == columns
    decreases |columns|
  {
    if columns != [] {
      CopiedUntouched(columns[1..], m);
    }
  }

  /** `copied.map { |c| renames[c] }`: the destination names. */
  function Renamed(copied: seq<string>, m: Renames): (r: seq<string>)
    requires forall i :: 0 <= i < |copied| ==> Lookup(m, copied[i]).Some?
    ensures |r| == |copied|
    ensures forall i :: 0 <= i < |r| ==> Lookup(m, copied[i]) == Some(r[i])
  {
    seq(|copied|, i requires 0 <= i < |copied| => Lookup(m, copied[i]).value)
  }

  /** The destination columns of the copy for `columns` under `m`. */
  function Destination(columns: seq<string>, m: Renames): seq<string> {
    Renamed(Copied(columns, m), m)
  }

  /** The projection pairs source and destination columns one to one: the lists
      have the same length, the i-th destination is the i-th copied column's new
      name, dropped columns appear on neither side, every other column appears on
      the source side, and a column that was never renamed or removed keeps its
      name. */
  lemma ProjectionPairs(columns: seq<string>, m: Renames)
    ensures |Destination(columns, m)| == |Copied(columns, m)|
    ensures forall i :: 0 <= i < |Copied(columns, m)| ==>
      Lookup(m, Copied(columns, m)[i]) == Some(Destination(columns, m)[i])
    ensures forall c :: c in columns ==> (c in Copied(columns, m) <==> Lookup(m, c).Some?)
    ensures forall i :: 0 <= i < |Copied(columns, m)| && Copied(columns, m)[i] !in m ==>
      Destination(columns, m)[i] == Copied(columns, m)[i]
  {
  }

  /** `copy_sql_for`: `"#{insert_or_replace} INTO #{to_table} (#{renamed.join(', ')})
      SELECT #{copied.join(', ')} FROM #{from_table}"`, the line break and the
      indentation of the source's string literal included. */
  function CopySqlFor(verb: string, fromTable: string, toTable: string, columns: seq<string>, m: Renames): (r: string)
    ensures (forall i :: 0 <= i < |columns| ==> columns[i] !in m) ==> r == PlainCopySql(verb, fromTable, toTable, columns)
  {
    UntouchedProjection(columns, m);
    verb + " INTO " + toTable + " (" + Join(Destination(columns, m), ", ") + ")\n        SELECT "
      + Join(Copied(columns, m), ", ") + " FROM " + fromTable
  }

  /** The copy of every column into a column of the same name. */
  function PlainCopySql(verb: string, fromTable: string, toTable: string, columns: seq<string>): string {
    var list := Join(columns, ", ");
    verb + " INTO " + toTable + " (" + list + ")\n        SELECT " + list + " FROM " + fromTable
  }

  /** A projection no hook has touched copies each column under its own name. */
  lemma UntouchedProjection(columns: seq<string>, m: Renames)
    ensures (forall i :: 0 <= i < |columns| ==> columns[i] !in m) ==>
      Copied(columns, m) == columns && Destination(columns, m) == columns
  {
    if forall i :: 0 <= i < |columns| ==> columns[i] !in m {
      CopiedUntouched(columns, m);
      ProjectionPairs(columns, m);
    }
  }

  /** The worked example: `users(id, name, email, created_at, updated_at)` with
      `email` renamed to `email_address` and `created_at` removed is copied into
      `(id, name, email_address, updated_at)`. */
  lemma UsersExample()
    ensures var cols := ["id", "name", "email", "created_at", "updated_at"];
            var m := Replay(map[], [Change("rename_column", ["email", "email_address"]),
                                    Change("remove_column", ["created_at"])]);
            Copied(cols, m) == ["id", "name", "email", "updated_at"] &&
            Destination(cols, m) == ["id", "name", "email_address", "updated_at"]
  {
    var m := Replay(map[], [Change("rename_column", ["email", "email_address"]),
                            Change("remove_column", ["created_at"])]);
    UsersRenames();
    UsersCopied(m);
  }

  lemma UsersRenames()
    ensures Replay(map[], [Change("rename_column", ["email", "email_address"]), Change("remove_column", ["created_at"])])
      == map["email" := Some("email_address"), "created_at" := None]
  {
    var chs := [Change("rename_column", ["email", "email_address"]), Change("remove_column", ["created_at"])];
    var c0, c1 := chs[0], chs[1];
    ReplayStep(map[], [], c0);
    assert [] + [c0] == [c0];
    ReplayStep(map[], [c0], c1);
    assert [c0] + [c1] == chs;
    var m1 := map["email" := Some("email_address")];
    assert Hook(map[], c0) == m1;
    assert Replay(map[], [c0]) == m1;
    assert ["created_at"][1..] == [];
    assert RemoveColumns(m1, ["created_at"]) == m1["created_at" := None];
  }

  lemma UsersCopied(m: Renames)
    requires m == map["email" := Some("email_address"), "created_at" := None]
    ensures Copied(["id", "name", "email", "created_at", "updated_at"], m) == ["id", "name", "email", "updated_at"]
    ensures Destination(["id", "name", "email", "created_at", "updated_at"], m) == ["id", "name", "email_address", "updated_at"]
  {
    assert Lookup(m, "id") == Some("id") && Lookup(m, "name") == Some("name");
    assert Lookup(m, "created_at") == None && Lookup(m, "updated_at") == Some("updated_at");
    assert Lookup(m, "email") == Some("email_address");
    FourOfFive("id", "name", "email", "created_at", "updated_at", m);
  }

  /** Five columns of which the fourth is dropped. */
  lemma FourOfFive(a: string, b: string, c: string, d: string, f: string, m: Renames)
    requires Lookup(m, a).Some? && Lookup(m, b).Some? && Lookup(m, c).Some? && Lookup(m, d).None? && Lookup(m, f).Some?
    ensures Copied([a, b, c, d, f], m) == [a, b, c, f]
    ensures Destination([a, b, c, d, f], m) == [Lookup(m, a).value, Lookup(m, b).value, Lookup(m, c).value, Lookup(m, f).value]
  {
    CopiedFour(a, b, c, d, f, m);
    RenamedFour(a, b, c, f, m);
  }

  lemma CopiedFour(a: string, b: string, c: string, d: string, f: string, m: Renames)
    requires Lookup(m, a).Some? && Lookup(m, b).Some? && Lookup(m, c).Some? && Lookup(m, d).None? && Lookup(m, f).Some?
    ensures Copied([a, b, c, d, f], m) == [a, b, c, f]
  {
    assert [f][1..] == [];
    assert Copied([f], m) == [f];
    assert [d, f][1..] == [f];
    assert Copied([d, f], m) == [f];
    assert [c, d, f][1..] == [d, f];
    assert Copied([c, d, f], m) == [c, f];
    assert [b, c, d, f][1..] == [c, d, f];
    assert Copied([b, c, d, f], m) == [b, c, f];
    assert [a, b, c, d, f][1..] == [b, c, d, f];
  }

  lemma RenamedFour(a: string, b: string, c: string, f: string, m: Renames)
    requires Lookup(m, a).Some? && Lookup(m, b).Some? && Lookup(m, c).Some? && Lookup(m, f).Some?
    ensures Renamed([a, b, c, f], m) == [Lookup(m, a).value, Lookup(m, b).value, Lookup(m, c).value, Lookup(m, f).value]
  {
    var r := Renamed([a, b, c, f], m);
    assert r[0] == Lookup(m, a).value && r[1] == Lookup(m, b).value;
    assert r[2] == Lookup(m, c).value && r[3] == Lookup(m, f).value;
  }
}
