/**
 * The phases of the older, monolithic `TableMigrator` as functions of its
 * environment and state, in the manner of `CopyRuns`. Where it differs from
 * the copy engine: it always builds the copy table and always pauses before
 * the swap; under a dry run it still issues the epoch query and takes the wall
 * clock as the epoch; its delta statements need an update map it cannot build;
 * the final delta inside the lock is never executed; its lock has no `ensure`;
 * and every statement passes through `prepare_sql`, which fills in the
 * table-name placeholders, before it is issued. The events record the text as
 * prepared.
 */
module LegacyRuns {
  import opened Wrappers
  import opened Text
  import opened Db
  import opened Plan
  import Names
  import R = CopyRuns

  /** `old_table_name`: `<table>_pre_<migration name>`, or `old<table>` with no separator. */
  function OldTableName(table: string, migrationName: Option<string>): (r: string)
    ensures migrationName.Some? ==> r == Names.OldTable(table, migrationName)
    ensures migrationName.None? ==> r != Names.OldTable(table, migrationName)
  {
    match migrationName
    case Some(name) => table + "_pre_" + name
    case None => "old" + table
  }

  /** The table, its copy `new_<table>` and the old name never coincide: their
      lengths tell them apart. */
  lemma NamesDistinct(table: string, migrationName: Option<string>)
    ensures Names.NewTable(table) != table
    ensures OldTableName(table, migrationName) != table
    ensures Names.NewTable(table) != OldTableName(table, migrationName)
  {
    assert |Names.NewTable(table)| == |table| + 4;
    match migrationName {
      case Some(name) => assert |OldTableName(table, migrationName)| == |table| + 5 + |name|;
      case None => assert |OldTableName(table, migrationName)| == |table| + 3;
    }
  }

  /** What a run depends on and never changes: the options, the table and the
      old table's name, the delta column, the copy template, the value assigned
      to `on_duplicate_update_map` (none unless a caller assigned one), the
      schema changes, the connection, the elapsed seconds of each delta pass in
      turn and the successive `Time.now.utc` readings of a dry run. */
  datatype Env = Env(
    dry: bool, multiPass: bool,
    table: string, oldTable: string, delta: string,
    template: string, updateMap: Option<string>, changes: seq<string>,
    conn: Connection, elapsedAt: nat -> int, nowAt: nat -> Epoch)

  /** `new_table_name`. */
  function NewTableOf(e: Env): string {
    Names.NewTable(e.table)
  }

  /** What a run changes: the stored epoch, how many replies of each kind the
      connection has given, how many delta passes have been timed and how many
      times a dry run has read the clock. */
  datatype St = St(next: Option<Epoch>, maxIds: nat, epochs: nat, idLists: nat, clock: nat, nows: nat)

  /** The events a phase issues, the state it leaves and how it ends. */
  datatype Run = Run(events: seq<Event>, st: St, out: Outcome<Error>)

  /** The same for a phase that yields an epoch. */
  datatype EpochRun<T> = EpochRun(events: seq<Event>, st: St, result: Result<T, Error>)

  // `prepare_sql`.

  /** `prepare_sql(sql)`: every `:table_name`, then every `:old_table_name`, then
      every `:new_table_name` replaced by the backticked name. */
  function PrepareSql(e: Env, sql: string): string {
    var s1 := ReplaceAll(sql, ":table_name", Backtick(e.table));
    var s2 := ReplaceAll(s1, ":old_table_name", Backtick(e.oldTable));
    ReplaceAll(s2, ":new_table_name", Backtick(NewTableOf(e)))
  }

  /** A statement that names none of the three placeholders is issued as it is written. */
  lemma PrepareSqlUntouched(e: Env, sql: string)
    ensures (!Occurs(sql, ":table_name") && !Occurs(sql, ":old_table_name") && !Occurs(sql, ":new_table_name")) ==>
      PrepareSql(e, sql) == sql
  {
    if !Occurs(sql, ":table_name") && !Occurs(sql, ":old_table_name") && !Occurs(sql, ":new_table_name") {
      ReplaceAllAbsent(sql, ":table_name", Backtick(e.table));
      ReplaceAllAbsent(sql, ":old_table_name", Backtick(e.oldTable));
      ReplaceAllAbsent(sql, ":new_table_name", Backtick(NewTableOf(e)));
    }
  }

  /** With names free of `:`, no placeholder is left in a prepared statement. */
  lemma PrepareSqlClears(e: Env, sql: string)
    // Names without `\`, so that `gsub` copies them literally, as `ReplaceAll` does.
    requires ':' !in e.table && ':' !in e.oldTable && '\\' !in e.table && '\\' !in e.oldTable
    ensures var s := PrepareSql(e, sql);
      !Occurs(s, ":table_name") && !Occurs(s, ":old_table_name") && !Occurs(s, ":new_table_name")
  {
    var t, o, n := Backtick(e.table), Backtick(e.oldTable), Backtick(NewTableOf(e));
    assert ':' !in t && ':' !in o;
    assert ':' !in n by { assert n == "`new_" + e.table + "`"; }
    var s1 := ReplaceAll(sql, ":table_name", t);
    var s2 := ReplaceAll(s1, ":old_table_name", o);
    var s3 := ReplaceAll(s2, ":new_table_name", n);
    ReplaceAllClears(sql, ":table_name", t);
    ReplaceAllClears(s1, ":old_table_name", o);
    ReplaceAllClears(s2, ":new_table_name", n);
    if Occurs(s2, ":table_name") {
      ReplaceAllNoNew(s1, ":old_table_name", o, ":table_name");
    }
    if Occurs(s3, ":table_name") {
      ReplaceAllNoNew(s2, ":new_table_name", n, ":table_name");
    }
    if Occurs(s3, ":old_table_name") {
      ReplaceAllNoNew(s2, ":new_table_name", n, ":old_table_name");
    }
  }

  /** A statement without `:` is issued as it is written. */
  lemma PrepareSqlKeeps(e: Env, sql: string)
    requires ':' !in sql
    ensures PrepareSql(e, sql) == sql
  {
    NoColonNoPlaceholder(sql, ":table_name");
    ReplaceAllAbsent(sql, ":table_name", Backtick(e.table));
    NoColonNoPlaceholder(sql, ":old_table_name");
    ReplaceAllAbsent(sql, ":old_table_name", Backtick(e.oldTable));
    NoColonNoPlaceholder(sql, ":new_table_name");
    ReplaceAllAbsent(sql, ":new_table_name", Backtick(NewTableOf(e)));
  }

  /** One `:table_name` between text free of `:` becomes the backticked table. */
  lemma PrepareSqlFillsTable(e: Env, a: string, b: string)
    requires ':' !in a && ':' !in b && ':' !in e.table
    ensures PrepareSql(e, a + ":table_name" + b) == a + Backtick(e.table) + b
  {
    var t := Backtick(e.table);
    ReplaceAllAt(a, b, ":table_name", t);
    NoColonNoPlaceholder(b, ":table_name");
    ReplaceAllAbsent(b, ":table_name", t);
    var s1 := a + t + b;
    assert ':' !in s1;
    PrepareSqlKeepsLater(e, s1);
  }

  /** The last two replacements of `prepare_sql` leave text without `:` alone. */
  lemma PrepareSqlKeepsLater(e: Env, s: string)
    requires ':' !in s
    ensures ReplaceAll(ReplaceAll(s, ":old_table_name", Backtick(e.oldTable)), ":new_table_name", Backtick(NewTableOf(e))) == s
  {
    NoColonNoPlaceholder(s, ":old_table_name");
    ReplaceAllAbsent(s, ":old_table_name", Backtick(e.oldTable));
    NoColonNoPlaceholder(s, ":new_table_name");
    ReplaceAllAbsent(s, ":new_table_name", Backtick(NewTableOf(e)));
  }

  lemma NoColonNoPlaceholder(s: string, p: string)
    requires p != [] && p[0] == ':' && ':' !in s
    ensures !Occurs(s, p)
  {
    if Occurs(s, p) {
      assert s + [] == s;
      OccursPastPrefix(s, [], p);
      OccursLength([], p);
    }
  }

  /** `prepare_sql` of each statement, in order. */
  function PrepareAll(e: Env, stmts: seq<string>): (r: seq<string>)
    ensures |r| == |stmts| && forall i :: 0 <= i < |stmts| ==> r[i] == PrepareSql(e, stmts[i])
  {
    seq(|stmts|, i requires 0 <= i < |stmts| => PrepareSql(e, stmts[i]))
  }

  lemma PrepareAllAppend(e: Env, a: seq<string>, b: seq<string>)
    ensures PrepareAll(e, a + b) == PrepareAll(e, a) + PrepareAll(e, b)
  {
  }

  /** `execute(sql)` for each statement in turn: prepared, issued always, sent
      and possibly rejected only outside a dry run. */
  function Execs(e: Env, stmts: seq<string>): (r: Steps)
    ensures NoPause(r.events)
  {
    ExecAll(e.dry, e.conn.rejects, PrepareAll(e, stmts))
  }

  // The statements and queries of lib/table_migrator.rb, before preparation.

  const CreateStatement := "CREATE TABLE :new_table_name LIKE :table_name"

  const ProbeQuery := "SELECT * FROM :table_name LIMIT 1"

  const MaxIdQuery := "select max(id) from :new_table_name"

  function EpochQuery(e: Env): string {
    "SELECT " + Backtick(e.delta) + " FROM " + Backtick(e.table) +
    "\n      ORDER BY " + Backtick(e.delta) + " DESC LIMIT 1"
  }

  /** The epoch query reads the delta column of the table, newest value first,
      one row; with names free of `:`, `prepare_sql` leaves it as it is. */
  lemma EpochQueryShape(e: Env)
    ensures var q := EpochQuery(e);
      StartsWith(q, "SELECT " + Backtick(e.delta) + " FROM " + Backtick(e.table)) &&
      EndsIn(q, " DESC LIMIT 1") &&
      (':' !in e.delta && ':' !in e.table ==> PrepareSql(e, q) == q)
  {
    var q := EpochQuery(e);
    if ':' !in e.delta && ':' !in e.table {
      PrepareSqlKeeps(e, q);
    }
  }

  /** `paged_copy_query(start, PAGE_SIZE)`: the template restricted to the next
      `PAGE_SIZE` ids after `start`. */
  function PagedCopyQuery(e: Env, start: int): (r: string)
    ensures StartsWith(r, e.template + " WHERE `id` > ")
    ensures EndsIn(r, " LIMIT " + IntToString(PageSize))
  {
    var head, tail := e.template + " WHERE `id` > ", " LIMIT " + IntToString(PageSize);
    Framed(head, IntToString(start), tail);
    head + IntToString(start) + tail
  }

  /** Each page's statement names its own starting id. */
  lemma PagedCopyQueryInjective(e: Env, a: int, b: int)
    requires PagedCopyQuery(e, a) == PagedCopyQuery(e, b)
    ensures a == b
  {
    var head, tail := e.template + " WHERE `id` > ", " LIMIT " + IntToString(PageSize);
    Framed(head, IntToString(a), tail);
    Framed(head, IntToString(b), tail);
    IntToStringInjective(a, b);
  }

  /** The page statement as issued. */
  function PageFn(e: Env): int -> string {
    start => PrepareSql(e, PagedCopyQuery(e, start))
  }

  /** `updated_ids_query(epoch)`: the table name is interpolated without backticks. */
  function UpdatedIdsQuery(e: Env, epoch: Option<Epoch>): string {
    "SELECT `id` FROM " + e.table + " WHERE " + Backtick(e.delta) + " >= '" + R.Render(epoch) + "'"
  }

  /** The id query selects from the bare table name and keeps the rows whose
      delta column is at or after the epoch. */
  lemma UpdatedIdsQueryShape(e: Env, epoch: Option<Epoch>)
    ensures var q := UpdatedIdsQuery(e, epoch);
      StartsWith(q, "SELECT `id` FROM " + e.table) && EndsIn(q, R.DeltaCondition(e.delta, epoch))
  {
    Framed("SELECT `id` FROM " + e.table, "", R.DeltaCondition(e.delta, epoch));
    assert UpdatedIdsQuery(e, epoch) == "SELECT `id` FROM " + e.table + "" + R.DeltaCondition(e.delta, epoch);
  }

  const DuplicateClause := "\n      ON DUPLICATE KEY UPDATE "

  /** `on_duplicate_update_map`: the value it would build reads `common_cols`,
      which is defined nowhere, so it raises NameError unless a value was
      assigned through the attribute writer. */
  function UpdateMap(e: Env): (r: Result<string, Error>)
    ensures e.updateMap.None? <==> r == Err(UndefinedName("common_cols"))
    ensures e.updateMap.Some? ==> r == Ok(e.updateMap.value)
  {
    match e.updateMap
    case None => Err(UndefinedName("common_cols"))
    case Some(m) => Ok(m)
  }

  function DeltaQueryText(e: Env, ids: seq<int>, updates: string): string {
    e.template + " WHERE `id` in (" + IdList(ids) + ")" + DuplicateClause + updates
  }

  /** `paged_delta_copy_query(ids)`: the template restricted to the ids, then
      the update clause over the map, or the map's NameError. */
  function PagedDeltaQuery(e: Env, ids: seq<int>): (r: Result<string, Error>)
    ensures r.Err? <==> e.updateMap.None?
    ensures r.Err? ==> r.error == UndefinedName("common_cols")
    ensures r.Ok? ==> (StartsWith(r.value, e.template + " WHERE `id` in (") &&
      EndsIn(r.value, DuplicateClause + e.updateMap.value))
  {
    match UpdateMap(e)
    case Err(err) => Err(err)
    case Ok(m) =>
      var s := DeltaQueryText(e, ids, m);
      assert s == (e.template + " WHERE `id` in (") + (IdList(ids) + ")" + DuplicateClause + m);
      assert s == (e.template + " WHERE `id` in (" + IdList(ids) + ")") + (DuplicateClause + m);
      Ok(s)
  }

  /** `full_delta_copy_query(epoch)`: the template restricted to rows changed
      since the epoch, then the update clause, or the map's NameError. */
  function FullDeltaQuery(e: Env, epoch: Option<Epoch>): (r: Result<string, Error>)
    ensures r.Err? <==> e.updateMap.None?
    ensures r.Err? ==> r.error == UndefinedName("common_cols")
    ensures r.Ok? ==> (StartsWith(r.value, e.template + " WHERE " + Backtick(e.delta) + " >= '") &&
      EndsIn(r.value, DuplicateClause + e.updateMap.value))
  {
    match UpdateMap(e)
    case Err(err) => Err(err)
    case Ok(m) =>
      var head := e.template + " WHERE " + Backtick(e.delta) + " >= '";
      var s := head + R.Render(epoch) + "'" + DuplicateClause + m;
      assert s == head + (R.Render(epoch) + "'" + DuplicateClause + m);
      assert s == (head + R.Render(epoch) + "'") + (DuplicateClause + m);
      Ok(s)
  }

  /** One delta statement per group of at most `DELTA_PAGE_SIZE` ids, in order. */
  function DeltaStatements(e: Env, ids: seq<int>, updates: string): (r: seq<string>)
    ensures var groups := InGroupsOf(ids, DeltaPageSize);
      |r| == |groups| && forall i :: 0 <= i < |r| ==> r[i] == DeltaQueryText(e, groups[i], updates)
  {
    var groups := InGroupsOf(ids, DeltaPageSize);
    seq(|groups|, i requires 0 <= i < |groups| => DeltaQueryText(e, groups[i], updates))
  }

  /** `create_new_table`: the empty copy, then each schema change. */
  function CreateStatements(e: Env): seq<string> {
    [CreateStatement] + e.changes
  }

  /** The renames of the locked pass, the first lacking the closing backtick
      after the old table's name. */
  function SwapStatements(e: Env): (r: seq<string>)
    ensures |r| == 2 && r[0] + "`" == RenameStatement(e.table, e.oldTable) && r[1] == RenameStatement(NewTableOf(e), e.table)
  {
    ["ALTER TABLE " + Backtick(e.table) + " RENAME TO `" + e.oldTable,
     "ALTER TABLE " + Backtick(NewTableOf(e)) + " RENAME TO " + Backtick(e.table)]
  }

  /** The block for an empty table: the whole copy, then the renames. */
  function EmptySwapStatements(e: Env): seq<string> {
    [e.template] + SwapStatements(e)
  }

  /** The block of `down!`. */
  function DownStatements(e: Env): (r: seq<string>)
    ensures r == [RenameStatement(e.table, NewTableOf(e)), RenameStatement(e.oldTable, e.table), "DROP TABLE " + Backtick(NewTableOf(e))]
  {
    ["ALTER TABLE " + Backtick(e.table) + " RENAME TO " + Backtick(NewTableOf(e)),
     "ALTER TABLE " + Backtick(e.oldTable) + " RENAME TO " + Backtick(e.table),
     "DROP TABLE " + Backtick(NewTableOf(e))]
  }

  // The phases.

  /** `next_epoch`: the epoch query is issued either way; a dry run sends
      nothing and takes the clock's reading, otherwise the newest delta value is
      read, and a query that finds no row is an error. */
  function NextEpoch(e: Env, st: St): (r: EpochRun<Epoch>)
    ensures r.events == [Query(PrepareSql(e, EpochQuery(e)))]
    ensures e.dry ==> r.st == st.(nows := st.nows + 1) && r.result == Ok(e.nowAt(st.nows))
    ensures r.st.next == st.next && r.st.maxIds == st.maxIds && r.st.idLists == st.idLists && r.st.clock == st.clock
  {
    var q := PrepareSql(e, EpochQuery(e));
    if e.dry then EpochRun([Query(q)], st.(nows := st.nows + 1), Ok(e.nowAt(st.nows)))
    else if q in e.conn.rejects then EpochRun([Query(q)], st, Err(ExecutionFailed(q)))
    else
      var st1 := st.(epochs := st.epochs + 1);
      match e.conn.epochAt(st.epochs)
      case None => EpochRun([Query(q)], st1, Err(NoEpochRow))
      case Some(epoch) => EpochRun([Query(q)], st1, Ok(epoch))
  }

  /** `flop_epoch`: yields the epoch stored so far (nil before the first flop)
      and stores a freshly captured one; when the capture fails the stored
      epoch stays. */
  function FlopEpoch(e: Env, st: St): (r: EpochRun<Option<Epoch>>)
    ensures r.result.Ok? ==> r.result.value == st.next && r.st.next.Some?
    ensures r.result.Err? ==> r.st.next == st.next
    ensures e.dry ==> r.result == Ok(st.next) && r.st.next == Some(e.nowAt(st.nows))
  {
    var n := NextEpoch(e, st);
    match n.result
    case Err(err) => EpochRun(n.events, n.st, Err(err))
    case Ok(epoch) => EpochRun(n.events, n.st.(next := Some(epoch)), Ok(st.next))
  }

  /** Outside a dry run the prepared epoch query is issued: a rejected query is
      the error and changes nothing; otherwise one epoch reply is read, and the
      query fails exactly when that reply has no row. */
  lemma NextEpochReads(e: Env, st: St)
    requires !e.dry
    ensures var r, q := NextEpoch(e, st), PrepareSql(e, EpochQuery(e));
      (q in e.conn.rejects ==> r.st == st && r.result == Err(ExecutionFailed(q))) &&
      (q !in e.conn.rejects ==>
        r.st == st.(epochs := st.epochs + 1) &&
        (r.result.Ok? <==> e.conn.epochAt(st.epochs).Some?) &&
        (r.result.Ok? ==> r.result.value == e.conn.epochAt(st.epochs).value) &&
        (r.result.Err? ==> r.result.error == NoEpochRow))
  {
  }

  /** A flop issues what the capture issues; a capture that succeeds is stored
      and the epoch stored before is yielded, and a failed one is passed on with
      the state it left. */
  lemma FlopEpochStores(e: Env, st: St)
    ensures var r, n := FlopEpoch(e, st), NextEpoch(e, st);
      r.events == n.events &&
      (n.result.Ok? ==> r.st == n.st.(next := Some(n.result.value)) && r.result == Ok(st.next)) &&
      (n.result.Err? ==> r.st == n.st && r.result == Err(n.result.error))
  {
  }

  /** A flop against the database succeeds exactly when the prepared epoch
      query is accepted and finds a row; it then reads the next epoch reply,
      stores it as the last epoch, and the following flop yields that stored
      epoch. */
  lemma FlopEpochCaptures(e: Env, st: St)
    requires !e.dry
    ensures var f := FlopEpoch(e, st);
      f.result.Ok? <==> PrepareSql(e, EpochQuery(e)) !in e.conn.rejects && e.conn.epochAt(st.epochs).Some?
    ensures var f := FlopEpoch(e, st);
      f.result.Ok? ==>
        f.st.epochs == st.epochs + 1 && f.st.next == e.conn.epochAt(st.epochs) &&
        (FlopEpoch(e, f.st).result.Ok? ==> FlopEpoch(e, f.st).result.value == e.conn.epochAt(st.epochs))
  {
    var n := NextEpoch(e, st);
    var f := FlopEpoch(e, st);
    NextEpochReads(e, st);
    FlopEpochStores(e, st);
    if f.result.Ok? {
      assert n.result.Ok?;
      var f2 := FlopEpoch(e, f.st);
      assert f2.result.Ok? ==> f2.result.value == f.st.next;
    }
  }

  /** `paged_copy`: one flop, then the page loop from id 0. */
  function PagedCopy(e: Env, st: St): (r: Run)
    requires e.conn.Sane()
    ensures NoPause(r.events)
  {
    var f := FlopEpoch(e, st);
    if f.result.Err? then Run(f.events, f.st, Fail(f.result.error))
    else
      var p := PagedLoop(e.conn, e.dry, PageFn(e), PrepareSql(e, MaxIdQuery), f.st.maxIds, 0);
      Run(f.events + p.events, f.st.(maxIds := p.seen), p.out)
  }

  /** Every event is a query: nothing was executed. */
  predicate OnlyQueries(events: seq<Event>) {
    forall i :: 0 <= i < |events| ==> events[i].Query?
  }

  /** The loop over the groups of changed ids: nothing without ids; otherwise,
      without an assigned update map, the first group's log line raises
      NameError before any statement, and with one, each group's statement is
      executed. */
  function DeltaGroups(e: Env, ids: seq<int>): (r: Steps)
    ensures NoPause(r.events)
  {
    if ids == [] then Steps([], Pass)
    else match e.updateMap
      case None => Steps([], Fail(UndefinedName("common_cols")))
      case Some(m) => Execs(e, DeltaStatements(e, ids, m))
  }

  /** `paged_delta_copy`: flop, select the ids changed since the epoch the flop
      yielded (none under a dry run, where nothing is sent), then the groups. */
  function PagedDeltaCopy(e: Env, st: St): (r: Run)
    ensures r.st.clock == st.clock
    ensures NoPause(r.events)
    ensures e.updateMap.None? ==> OnlyQueries(r.events)
  {
    var f := FlopEpoch(e, st);
    if f.result.Err? then Run(f.events, f.st, Fail(f.result.error))
    else
      var q := PrepareSql(e, UpdatedIdsQuery(e, f.result.value));
      if !e.dry && q in e.conn.rejects then Run(f.events + [Query(q)], f.st, Fail(ExecutionFailed(q)))
      else
        var ids := if e.dry then [] else e.conn.idsAt(f.st.idLists);
        var st1 := if e.dry then f.st else f.st.(idLists := f.st.idLists + 1);
        var x := DeltaGroups(e, ids);
        Run(f.events + [Query(q)] + x.events, st1, x.out)
  }

  /** `multi_pass_delta_copy` from pass number `pass`: a delta pass, then stop
      when it took at most `DELTA_CONTINUE_THRESHOLD` seconds or was the last
      allowed pass. */
  function MultiPass(e: Env, st: St, pass: nat): (r: Run)
    requires 1 <= pass <= MaxDeltaPasses
    ensures NoPause(r.events)
    ensures e.updateMap.None? ==> OnlyQueries(r.events)
    decreases MaxDeltaPasses - pass, 1
  {
    AfterPass(e, PagedDeltaCopy(e, st), pass)
  }

  /** What the delta passes do after pass number `pass` ended as `d`: stop on a
      failure; otherwise time the pass, and stop when it was fast enough or the
      last allowed, or else make the next pass. */
  function AfterPass(e: Env, d: Run, pass: nat): (r: Run)
    requires 1 <= pass <= MaxDeltaPasses && NoPause(d.events)
    ensures NoPause(r.events)
    ensures e.updateMap.None? && OnlyQueries(d.events) ==> OnlyQueries(r.events)
    decreases MaxDeltaPasses - pass, 0
  {
    if d.out.Fail? then d
    else
      var elapsed := e.elapsedAt(d.st.clock);
      var st1 := d.st.(clock := d.st.clock + 1);
      if elapsed <= DeltaContinueThreshold || pass == MaxDeltaPasses then Run(d.events, st1, Pass)
      else
        var rest := MultiPass(e, st1, pass + 1);
        Run(d.events + rest.events, rest.st, rest.out)
  }

  /** `in_table_lock(t1, t2) { body }`: autocommit off, both tables
      write-locked, the block, COMMIT, UNLOCK and autocommit back on, in one
      straight sequence with no `ensure`, so nothing follows a failure. */
  function InTableLock(e: Env, t1: string, t2: string, body: seq<string>): (r: Steps)
    ensures NoPause(r.events)
  {
    Bracketed(e, LockPrelude(t1, t2), body, LockPostlude + [RestoreAutocommit])
  }

  /** `before`, the block and `after`, each prepared and executed in turn; the
      first failure ends the run. */
  function Bracketed(e: Env, before: seq<string>, body: seq<string>, after: seq<string>): (r: Steps)
    ensures NoPause(r.events)
  {
    var pre := Execs(e, before);
    if pre.out.Fail? then pre
    else
      var b := Execs(e, body);
      if b.out.Fail? then Steps(pre.events + b.events, b.out)
      else
        var post := Execs(e, after);
        Steps(pre.events + b.events + post.events, post.out)
  }

  /** `up!` up to the row probe: `create_new_table`, then, outside a dry run,
      the query for a first row. */
  function Setup(e: Env): (r: Steps)
    ensures NoPause(r.events)
  {
    var c := Execs(e, CreateStatements(e));
    if c.out.Fail? || e.dry then c
    else
      var probe := Execs(e, [ProbeQuery]);
      Steps(c.events + probe.events, probe.out)
  }

  /** The copying part of `up!`: `paged_copy`, then the delta passes when `multi_pass` is set. */
  function Copies(e: Env, st: St): (r: Run)
    requires e.conn.Sane()
    ensures NoPause(r.events)
  {
    var p := PagedCopy(e, st);
    if p.out.Fail? then p
    else
      var m := if e.multiPass then MultiPass(e, p.st, 1) else Run([], p.st, Pass);
      Run(p.events + m.events, m.st, m.out)
  }

  /** The rest of `up!` for a table with rows: the copying, the settle pause,
      then the renames under one lock (`full_delta_copy` hands its statement to
      a logger that never runs it, so the lock holds no final delta). */
  function CopyAndSwap(e: Env, st: St): (r: Run)
    requires e.conn.Sane()
    ensures Copies(e, st).out.Pass? ==> Pause in r.events
    ensures Copies(e, st).out.Fail? ==> r == Copies(e, st)
  {
    var c := Copies(e, st);
    if c.out.Fail? then c
    else
      var lock := InTableLock(e, e.table, NewTableOf(e), SwapStatements(e));
      Run(c.events + [Pause] + lock.events, c.st, lock.out)
  }

  /** The part of `up!` for an empty table: the whole copy and the renames under one lock. */
  function EmptySwap(e: Env): (r: Steps)
    ensures NoPause(r.events)
  {
    InTableLock(e, e.table, NewTableOf(e), EmptySwapStatements(e))
  }

  /** What `up!` does once the new table exists: with rows to copy (always
      under a dry run) the copying and the swap, otherwise the copy under the lock. */
  function Swap(e: Env, st: St): (r: Run)
    requires e.conn.Sane()
    ensures Pause in r.events ==> e.dry || e.conn.hasRows
    ensures !e.dry && !e.conn.hasRows ==> r.st == st
  {
    if e.dry || e.conn.hasRows then CopyAndSwap(e, st)
    else
      var lock := EmptySwap(e);
      Run(lock.events, st, lock.out)
  }

  /** `up!`. */
  function Up(e: Env, st: St): (r: Run)
    requires e.conn.Sane()
    ensures Pause in r.events ==> e.dry || e.conn.hasRows
    ensures Setup(e).out.Fail? ==> r == Run(Setup(e).events, st, Setup(e).out)
    ensures Setup(e).out.Pass? && (e.dry || e.conn.hasRows) && Copies(e, st).out.Pass? ==> Pause in r.events
  {
    var pre := Setup(e);
    if pre.out.Fail? then Run(pre.events, st, pre.out)
    else
      var x := Swap(e, st);
      Run(pre.events + x.events, x.st, x.out)
  }

  /** `down!`. */
  function Down(e: Env): (r: Steps)
    ensures NoPause(r.events)
  {
    InTableLock(e, e.table, e.oldTable, DownStatements(e))
  }

  // What the phases guarantee.

  /** The events of a successful run of `stmts`, each prepared. */
  function Issued(e: Env, stmts: seq<string>): seq<Event> {
    ExecEvents(PrepareAll(e, stmts))
  }

  /** A run of statements that succeeds issued each of them, prepared; one that
      fails is not a dry run and ended with the statement the database rejected. */
  lemma ExecsEnds(e: Env, stmts: seq<string>)
    ensures Execs(e, stmts).out.Pass? ==> Execs(e, stmts).events == Issued(e, stmts)
    ensures Execs(e, stmts).out.Fail? ==> FailsLast(e, Execs(e, stmts))
  {
    ExecAllEnds(e.dry, e.conn.rejects, PrepareAll(e, stmts));
  }

  /** The run is outside a dry run and ended with the statement the database
      rejected, which is the error it reports: nothing was issued after it. */
  predicate FailsLast(e: Env, r: Steps) {
    !e.dry && r.events != [] && r.events[|r.events| - 1].Exec? &&
    r.events[|r.events| - 1].sql in e.conn.rejects &&
    r.out == Fail(ExecutionFailed(r.events[|r.events| - 1].sql))
  }

  lemma Issued3(e: Env, a: seq<string>, b: seq<string>, c: seq<string>)
    ensures Issued(e, a) + Issued(e, b) + Issued(e, c) == Issued(e, a + b + c)
  {
    PrepareAllAppend(e, a, b);
    PrepareAllAppend(e, a + b, c);
    ExecEventsAppend(PrepareAll(e, a), PrepareAll(e, b));
    ExecEventsAppend(PrepareAll(e, a + b), PrepareAll(e, c));
  }

  /** `in_table_lock` of the older migrator: on success the prelude, the block,
      COMMIT, UNLOCK and the autocommit restore, each prepared, and nothing else;
      a failure anywhere ends the run at the statement that failed, so no COMMIT,
      UNLOCK or restore follows it; a failing block comes right after the lock. */
  lemma InTableLockShape(e: Env, t1: string, t2: string, body: seq<string>)
    ensures var r := InTableLock(e, t1, t2, body);
      r.out.Pass? ==> r.events == Issued(e, LockPrelude(t1, t2) + body + (LockPostlude + [RestoreAutocommit]))
    ensures var r := InTableLock(e, t1, t2, body);
      r.out.Fail? ==> FailsLast(e, r)
    ensures var r := InTableLock(e, t1, t2, body);
      Execs(e, LockPrelude(t1, t2)).out.Pass? && Execs(e, body).out.Fail? ==>
        r.events == Issued(e, LockPrelude(t1, t2)) + Execs(e, body).events
  {
    BracketedShape(e, LockPrelude(t1, t2), body, LockPostlude + [RestoreAutocommit]);
  }

  /** The bracketed run issues all three parts when it succeeds, stops at the
      statement that failed otherwise, and a failing block comes right after
      `before`. */
  lemma BracketedShape(e: Env, before: seq<string>, body: seq<string>, after: seq<string>)
    ensures var r := Bracketed(e, before, body, after);
      (r.out.Pass? ==> r.events == Issued(e, before + body + after)) &&
      (r.out.Fail? ==> FailsLast(e, r)) &&
      (Execs(e, before).out.Pass? && Execs(e, body).out.Fail? ==> r.events == Issued(e, before) + Execs(e, body).events)
  {
    var pre, b, post := Execs(e, before), Execs(e, body), Execs(e, after);
    ExecsEnds(e, before);
    ExecsEnds(e, body);
    ExecsEnds(e, after);
    if pre.out.Pass? && b.out.Pass? && post.out.Pass? {
      Issued3(e, before, body, after);
    } else if pre.out.Pass? && b.out.Fail? {
      LastOfAppend(pre.events, b.events);
    } else if pre.out.Pass? && b.out.Pass? {
      LastOfAppend(pre.events + b.events, post.events);
    }
  }

  lemma LastOfAppend<T>(a: seq<T>, b: seq<T>)
    requires b != []
    ensures a + b != [] && (a + b)[|a + b| - 1] == b[|b| - 1]
  {
  }

  /** A dry run of `up!` cannot fail: the delta passes select no ids, so they
      never reach the update map's NameError. */
  lemma DryRunUpSucceeds(e: Env, st: St)
    requires e.conn.Sane() && e.dry
    ensures Up(e, st).out.Pass?
  {
    if e.multiPass {
      MultiPassDry(e, PagedCopy(e, st).st, 1);
    }
  }

  lemma {:induction false} MultiPassDry(e: Env, st: St, pass: nat)
    requires e.dry && 1 <= pass <= MaxDeltaPasses
    ensures MultiPass(e, st, pass).out.Pass?
    decreases MaxDeltaPasses - pass
  {
    var d := PagedDeltaCopy(e, st);
    assert d.out.Pass?;
    if !(e.elapsedAt(d.st.clock) <= DeltaContinueThreshold || pass == MaxDeltaPasses) {
      MultiPassDry(e, d.st.(clock := d.st.clock + 1), pass + 1);
    }
  }

  /** A dry `paged_copy` issues the epoch query, which is not sent, stores the
      clock's reading as the epoch, and issues exactly one page, the one after id 0. */
  lemma PagedCopyDry(e: Env, st: St)
    requires e.conn.Sane() && e.dry
    ensures PagedCopy(e, st) == Run([Query(PrepareSql(e, EpochQuery(e))), Exec(PageFn(e)(0))],
                                    st.(next := Some(e.nowAt(st.nows)), nows := st.nows + 1), Pass)
  {
    var f := FlopEpoch(e, st);
    PagedDryRunOnePage(e.conn, PageFn(e), PrepareSql(e, MaxIdQuery), f.st.maxIds);
  }


  /** Without an update map, a delta pass fails with the NameError as soon as
      the database reports a changed id. */
  lemma DeltaPassNameError(e: Env, st: St)
    requires e.updateMap.None?
    ensures var f := FlopEpoch(e, st);
      f.result.Ok? && !e.dry && PrepareSql(e, UpdatedIdsQuery(e, f.result.value)) !in e.conn.rejects &&
      e.conn.idsAt(f.st.idLists) != [] ==>
        PagedDeltaCopy(e, st).out == Fail(UndefinedName("common_cols"))
  {
  }

  /** How the delta passes go on after one pass `d`: they end with a pass that
      fails, stop after a fast pass or the last one allowed, and otherwise make
      the next pass with the clock one tick on. */
  lemma AfterPassStep(e: Env, d: Run, pass: nat)
    requires 1 <= pass <= MaxDeltaPasses && NoPause(d.events)
    ensures d.out.Fail? ==> AfterPass(e, d, pass) == d
    ensures d.out.Pass? && (e.elapsedAt(d.st.clock) <= DeltaContinueThreshold || pass == MaxDeltaPasses) ==>
      AfterPass(e, d, pass) == Run(d.events, d.st.(clock := d.st.clock + 1), Pass)
    ensures d.out.Pass? && !(e.elapsedAt(d.st.clock) <= DeltaContinueThreshold || pass == MaxDeltaPasses) ==>
      var rest := MultiPass(e, d.st.(clock := d.st.clock + 1), pass + 1);
      AfterPass(e, d, pass) == Run(d.events + rest.events, rest.st, rest.out)
  {
  }

  /** A successful run of the delta passes reads the clock once per pass, as
      many times as `CopyRuns.PassCount` counts. */
  lemma {:induction false} MultiPassCount(e: Env, st: St, pass: nat)
    requires 1 <= pass <= MaxDeltaPasses
    ensures MultiPass(e, st, pass).out.Pass? ==>
      MultiPass(e, st, pass).st.clock == st.clock + R.PassCount(e.elapsedAt, st.clock, pass)
    decreases MaxDeltaPasses - pass, 2
  {
    AfterPassCount(e, PagedDeltaCopy(e, st), pass);
  }

  lemma {:induction false} AfterPassCount(e: Env, d: Run, pass: nat)
    requires 1 <= pass <= MaxDeltaPasses && NoPause(d.events)
    ensures AfterPass(e, d, pass).out.Pass? ==>
      AfterPass(e, d, pass).st.clock == d.st.clock + R.PassCount(e.elapsedAt, d.st.clock, pass)
    decreases MaxDeltaPasses - pass, 1
  {
    if d.out.Pass? && !(e.elapsedAt(d.st.clock) <= DeltaContinueThreshold || pass == MaxDeltaPasses) {
      AfterPassGoesOnCount(e, d, pass);
    } else {
      AfterPassEndsCount(e, d, pass);
    }
  }

  lemma AfterPassEndsCount(e: Env, d: Run, pass: nat)
    requires 1 <= pass <= MaxDeltaPasses && NoPause(d.events)
    requires d.out.Fail? || e.elapsedAt(d.st.clock) <= DeltaContinueThreshold || pass == MaxDeltaPasses
    ensures AfterPass(e, d, pass).out.Pass? ==>
      AfterPass(e, d, pass).st.clock == d.st.clock + R.PassCount(e.elapsedAt, d.st.clock, pass)
  {
    AfterPassStep(e, d, pass);
    R.PassCountStep(e.elapsedAt, d.st.clock, pass);
  }

  lemma {:induction false} AfterPassGoesOnCount(e: Env, d: Run, pass: nat)
    requires 1 <= pass <= MaxDeltaPasses && NoPause(d.events)
    requires d.out.Pass? && !(e.elapsedAt(d.st.clock) <= DeltaContinueThreshold || pass == MaxDeltaPasses)
    ensures AfterPass(e, d, pass).out.Pass? ==>
      AfterPass(e, d, pass).st.clock == d.st.clock + R.PassCount(e.elapsedAt, d.st.clock, pass)
    decreases MaxDeltaPasses - pass, 0
  {
    var st1 := d.st.(clock := d.st.clock + 1);
    AfterPassGoesOn(e, d, pass);
    R.PassCountStep(e.elapsedAt, d.st.clock, pass);
    MultiPassCount(e, st1, pass + 1);
  }

  lemma AfterPassGoesOn(e: Env, d: Run, pass: nat)
    requires 1 <= pass <= MaxDeltaPasses && NoPause(d.events)
    requires d.out.Pass? && !(e.elapsedAt(d.st.clock) <= DeltaContinueThreshold || pass == MaxDeltaPasses)
    ensures var rest := MultiPass(e, d.st.(clock := d.st.clock + 1), pass + 1);
      AfterPass(e, d, pass).st == rest.st && AfterPass(e, d, pass).out == rest.out
  {
    AfterPassStep(e, d, pass);
  }

  /** So the older class makes as many passes as the copy engine: between one
      and the passes left, every pass but the last slow, the last fast or the
      last allowed. */
  lemma PassCountBounds(e: Env, st: St, pass: nat)
    requires 1 <= pass <= MaxDeltaPasses
    ensures var n := R.PassCount(e.elapsedAt, st.clock, pass);
      (MultiPass(e, st, pass).out.Pass? ==> MultiPass(e, st, pass).st.clock == st.clock + n) &&
      1 <= n <= MaxDeltaPasses - pass + 1 &&
      (forall k :: st.clock <= k < st.clock + n - 1 ==> e.elapsedAt(k) > DeltaContinueThreshold) &&
      (e.elapsedAt(st.clock + n - 1) <= DeltaContinueThreshold || n == MaxDeltaPasses - pass + 1)
  {
    MultiPassCount(e, st, pass);
    R.PassCountBounds(e.elapsedAt, st.clock, pass);
  }

  /** The events of the locked swap. */
  function SwapEvents(e: Env): seq<Event> {
    Issued(e, LockPrelude(e.table, NewTableOf(e)) + SwapStatements(e) + (LockPostlude + [RestoreAutocommit]))
  }

  /** A successful `up!` over a table with rows ends with the settle pause and
      one lock on the table and its copy, inside which the table is renamed to
      the old name and the copy to the table's name, then COMMIT, UNLOCK and the
      autocommit restore; no final delta is copied under the lock. */
  lemma UpSwapsUnderOneLock(e: Env, st: St)
    requires e.conn.Sane() && (e.dry || e.conn.hasRows)
    ensures var r := Up(e, st); var tail := [Pause] + SwapEvents(e);
      r.out.Pass? ==> |tail| <= |r.events| && r.events[|r.events| - |tail|..] == tail
  {
    if Up(e, st).out.Pass? {
      var pre := Setup(e);
      var x := CopyAndSwap(e, st);
      var c := Copies(e, st);
      assert Up(e, st).events == pre.events + x.events;
      InTableLockShape(e, e.table, NewTableOf(e), SwapStatements(e));
      assert x.events == c.events + [Pause] + SwapEvents(e);
      R.Assoc(c.events, [Pause], SwapEvents(e));
      R.Assoc(pre.events, c.events, [Pause] + SwapEvents(e));
      R.EndsWith(pre.events + c.events, [Pause] + SwapEvents(e));
    }
  }

  /** A successful `up!` over an empty table, outside a dry run, creates the
      copy, applies the schema changes, probes, then copies everything and swaps
      under one lock: no paged copy, no delta pass and no pause. */
  lemma UpEmptyTable(e: Env, st: St)
    requires e.conn.Sane() && !e.dry && !e.conn.hasRows
    ensures Up(e, st).out.Pass? ==>
      Up(e, st).events == Issued(e, CreateStatements(e) + [ProbeQuery] +
        (LockPrelude(e.table, NewTableOf(e)) + EmptySwapStatements(e) + (LockPostlude + [RestoreAutocommit])))
    ensures Up(e, st).st == st
  {
    if Up(e, st).out.Pass? {
      var c := Execs(e, CreateStatements(e));
      var probe := Execs(e, [ProbeQuery]);
      ExecsEnds(e, CreateStatements(e));
      ExecsEnds(e, [ProbeQuery]);
      InTableLockShape(e, e.table, NewTableOf(e), EmptySwapStatements(e));
      var lock := LockPrelude(e.table, NewTableOf(e)) + EmptySwapStatements(e) + (LockPostlude + [RestoreAutocommit]);
      Issued3(e, CreateStatements(e), [ProbeQuery], lock);
    }
  }

  /** A successful `down!` renames the table to the copy's name and the old
      table back, then drops the copy, under one lock on the table and the old
      table, followed by COMMIT, UNLOCK and the restore. */
  lemma DownShape(e: Env)
    ensures Down(e).out.Pass? ==>
      Down(e).events == Issued(e, LockPrelude(e.table, e.oldTable) + DownStatements(e) + (LockPostlude + [RestoreAutocommit]))
    ensures Down(e).out.Fail? ==> FailsLast(e, Down(e))
  {
    InTableLockShape(e, e.table, e.oldTable, DownStatements(e));
  }
}
