/**
 * The phases of `TableMigrator::CopyEngine` as functions of the engine's
 * environment and state: for each phase, the events it issues, the state it
 * leaves and how it ends. The `CopyEngine.Engine` class carries the phases out
 * against the connection and is proved to do exactly what these functions say;
 * the lemmas here state what the phases guarantee.
 */
module CopyRuns {
  import opened Wrappers
  import opened Text
  import opened Db
  import opened Plan

  /** `Time.at(0)`, the dry-run epoch, as it renders in a UTC process. */
  const ZeroTime := Epoch("1970-01-01 00:00:00 +0000")

  /** What a run depends on and never changes: the options, the three table
      names, the delta column, the strategy's copy statement and schema changes,
      the connection, and the elapsed seconds of each delta pass in turn. */
  datatype Env = Env(
    dry: bool, createTemp: bool, multiPass: bool,
    table: string, newTable: string, oldTable: string, delta: string,
    copyQuery: string, changes: seq<string>,
    conn: Connection, elapsedAt: nat -> int)

  /** What a run changes: the stored epoch, how many replies of each kind the
      connection has given, and how many delta passes have been timed. */
  datatype St = St(next: Option<Epoch>, maxIds: nat, epochs: nat, idLists: nat, clock: nat)

  /** The events a phase issues, the state it leaves and how it ends. */
  datatype Run = Run(events: seq<Event>, st: St, out: Outcome<Error>)

  /** The same for a phase that yields an epoch. */
  datatype EpochRun<T> = EpochRun(events: seq<Event>, st: St, result: Result<T, Error>)

  /** An epoch as `"#{epoch}"` renders it: nil renders as nothing. */
  function Render(epoch: Option<Epoch>): string {
    match epoch
    case None => ""
    case Some(e) => e.text
  }

  // The statements and queries of copy_engine.rb.

  function CreateStatement(e: Env): string {
    "CREATE TABLE " + Backtick(e.newTable) + " LIKE " + Backtick(e.table)
  }

  function ProbeQuery(e: Env): string {
    "SELECT * FROM " + Backtick(e.table) + " LIMIT 1"
  }

  function MaxIdQuery(e: Env): string {
    "select max(id) from " + Backtick(e.newTable)
  }

  /** The epoch query reads the delta column of the table, newest value first,
      one row. */
  function EpochQuery(e: Env): string {
    "SELECT " + Backtick(e.delta) + " FROM " + Backtick(e.table) +
    "\n      ORDER BY " + Backtick(e.delta) + " DESC LIMIT 1"
  }

  /** The epoch query reads the delta column of the table, newest value first, one row. */
  lemma EpochQueryShape(e: Env)
    ensures StartsWith(EpochQuery(e), "SELECT " + Backtick(e.delta) + " FROM " + Backtick(e.table))
    ensures EndsIn(EpochQuery(e), " DESC LIMIT 1")
  {
  }

  /** `paged_copy_query(start, PAGE_SIZE)`: the copy statement restricted to
      the next `PAGE_SIZE` ids after `start`. */
  function PagedCopyQuery(e: Env, start: int): (r: string)
    ensures StartsWith(r, e.copyQuery + " WHERE `id` > ")
    ensures EndsIn(r, " LIMIT " + IntToString(PageSize))
  {
    var head, tail := e.copyQuery + " WHERE `id` > ", " LIMIT " + IntToString(PageSize);
    Framed(head, IntToString(start), tail);
    head + IntToString(start) + tail
  }

  /** Each page's statement names its own starting id: two pages with the same
      text start at the same id. */
  lemma PagedCopyQueryInjective(e: Env, a: int, b: int)
    requires PagedCopyQuery(e, a) == PagedCopyQuery(e, b)
    ensures a == b
  {
    var head, tail := e.copyQuery + " WHERE `id` > ", " LIMIT " + IntToString(PageSize);
    Framed(head, IntToString(a), tail);
    Framed(head, IntToString(b), tail);
    IntToStringInjective(a, b);
  }

  /** The condition of every delta query: rows whose delta column is at or after
      the epoch. */
  function DeltaCondition(delta: string, epoch: Option<Epoch>): string {
    " WHERE " + Backtick(delta) + " >= '" + Render(epoch) + "'"
  }

  function PageFn(e: Env): int -> string {
    start => PagedCopyQuery(e, start)
  }

  /** `full_delta_copy_query(epoch)`: the copy statement over the rows changed
      since the epoch. */
  function FullDeltaQuery(e: Env, epoch: Option<Epoch>): (r: string)
    ensures StartsWith(r, e.copyQuery) && EndsIn(r, DeltaCondition(e.delta, epoch))
  {
    var s := e.copyQuery + " WHERE " + Backtick(e.delta) + " >= '" + Render(epoch) + "'";
    assert s == e.copyQuery + DeltaCondition(e.delta, epoch);
    s
  }

  /** `updated_ids_query(epoch)`: the ids of the rows changed since the epoch,
      under the same condition as the final delta; the table name is
      interpolated without backticks. */
  function UpdatedIdsQuery(e: Env, epoch: Option<Epoch>): string {
    "SELECT `id` FROM " + e.table + " WHERE " + Backtick(e.delta) + " >= '" + Render(epoch) + "'"
  }

  /** The id query selects from the bare table name and keeps the rows whose
      delta column is at or after the epoch. */
  lemma UpdatedIdsQueryShape(e: Env, epoch: Option<Epoch>)
    ensures var q := UpdatedIdsQuery(e, epoch);
      StartsWith(q, "SELECT `id` FROM " + e.table) && EndsIn(q, DeltaCondition(e.delta, epoch))
  {
    Framed("SELECT `id` FROM " + e.table, "", DeltaCondition(e.delta, epoch));
    assert UpdatedIdsQuery(e, epoch) == "SELECT `id` FROM " + e.table + "" + DeltaCondition(e.delta, epoch);
  }

  /** `paged_delta_copy_query(ids)`: the copy statement restricted to the ids. */
  function PagedDeltaQuery(e: Env, ids: seq<int>): (r: string)
    ensures StartsWith(r, e.copyQuery + " WHERE `id` in (") && EndsIn(r, IdList(ids) + ")")
  {
    var head := e.copyQuery + " WHERE `id` in (";
    var s := head + IdList(ids) + ")";
    assert s == head + (IdList(ids) + ")");
    s
  }

  /** One delta statement per group of at most `DELTA_PAGE_SIZE` ids, in order. */
  function DeltaStatements(e: Env, ids: seq<int>): (r: seq<string>)
    ensures var groups := InGroupsOf(ids, DeltaPageSize);
      |r| == |groups| && forall i :: 0 <= i < |r| ==> r[i] == PagedDeltaQuery(e, groups[i])
  {
    var groups := InGroupsOf(ids, DeltaPageSize);
    seq(|groups|, i requires 0 <= i < |groups| => PagedDeltaQuery(e, groups[i]))
  }

  /** `create_new_table`: the empty copy, then the schema changes, which the
      strategy runs only outside a dry run. */
  function CreateStatements(e: Env): seq<string> {
    [CreateStatement(e)] + (if e.dry then [] else e.changes)
  }

  /** The block of the locked pass when the table has rows: the final delta and
      the two renames. */
  function SwapStatements(e: Env, epoch: Option<Epoch>): (r: seq<string>)
    ensures r == [FullDeltaQuery(e, epoch), RenameStatement(e.table, e.oldTable), RenameStatement(e.newTable, e.table)]
  {
    [FullDeltaQuery(e, epoch),
     "ALTER TABLE " + Backtick(e.table) + " RENAME TO " + Backtick(e.oldTable),
     "ALTER TABLE " + Backtick(e.newTable) + " RENAME TO " + Backtick(e.table)]
  }

  /** The block when it has none: the whole copy, then the renames, the first of
      which lacks the closing backtick after the old table's name. */
  function EmptySwapStatements(e: Env): seq<string> {
    [e.copyQuery,
     "ALTER TABLE " + Backtick(e.table) + " RENAME TO `" + e.oldTable,
     "ALTER TABLE " + Backtick(e.newTable) + " RENAME TO " + Backtick(e.table)]
  }

  /** The block of `down!`. */
  function DownStatements(e: Env): (r: seq<string>)
    ensures r == [RenameStatement(e.table, e.newTable), RenameStatement(e.oldTable, e.table), "DROP TABLE " + Backtick(e.newTable)]
  {
    ["ALTER TABLE " + Backtick(e.table) + " RENAME TO " + Backtick(e.newTable),
     "ALTER TABLE " + Backtick(e.oldTable) + " RENAME TO " + Backtick(e.table),
     "DROP TABLE " + Backtick(e.newTable)]
  }

  // The phases.

  /** `next_epoch`: the dry-run sentinel without a query; otherwise the newest
      delta value, and an error when the query finds no row. */
  function NextEpoch(e: Env, st: St): (r: EpochRun<Epoch>)
    ensures e.dry ==> r == EpochRun([], st, Ok(ZeroTime))
    ensures !e.dry ==> r.events == [Query(EpochQuery(e))]
    ensures r.st.next == st.next && r.st.maxIds == st.maxIds && r.st.idLists == st.idLists && r.st.clock == st.clock
  {
    if e.dry then EpochRun([], st, Ok(ZeroTime))
    else
      var q := EpochQuery(e);
      if q in e.conn.rejects then EpochRun([Query(q)], st, Err(ExecutionFailed(q)))
      else
        var st1 := st.(epochs := st.epochs + 1);
        match e.conn.epochAt(st.epochs)
        case None => EpochRun([Query(q)], st1, Err(NoEpochRow))
        case Some(epoch) => EpochRun([Query(q)], st1, Ok(epoch))
  }

  /** `flop_epoch`: yields the epoch stored so far (nil before the first flop)
      and stores a freshly captured one; when the capture fails the stored epoch
      stays. */
  function FlopEpoch(e: Env, st: St): (r: EpochRun<Option<Epoch>>)
    ensures r.result.Ok? ==> r.result.value == st.next && r.st.next.Some?
    ensures r.result.Err? ==> r.st.next == st.next
    ensures e.dry ==> r == EpochRun([], st.(next := Some(ZeroTime)), Ok(st.next))
  {
    var n := NextEpoch(e, st);
    match n.result
    case Err(err) => EpochRun(n.events, n.st, Err(err))
    case Ok(epoch) => EpochRun(n.events, n.st.(next := Some(epoch)), Ok(st.next))
  }

  /** `last_epoch`. */
  function LastEpoch(st: St): Option<Epoch> {
    st.next
  }

  /** Outside a dry run the epoch query is issued: a rejected query is the
      error and changes nothing; otherwise one epoch reply is read, and the
      capture fails exactly when that reply has no row. */
  lemma NextEpochReads(e: Env, st: St)
    requires !e.dry
    ensures var r, q := NextEpoch(e, st), EpochQuery(e);
      (q in e.conn.rejects ==> r.st == st && r.result == Err(ExecutionFailed(q))) &&
      (q !in e.conn.rejects ==>
        r.st == st.(epochs := st.epochs + 1) &&
        (r.result.Ok? <==> e.conn.epochAt(st.epochs).Some?) &&
        (r.result.Ok? ==> r.result.value == e.conn.epochAt(st.epochs).value) &&
        (r.result.Err? ==> r.result.error == NoEpochRow))
  {
  }

  /** A flop issues what the capture issues; a capture that succeeds is stored
      and the epoch stored before is yielded, and a failed one is passed on with
      the state it left. */
  lemma FlopEpochStores(e: Env, st: St)
    ensures var r, n := FlopEpoch(e, st), NextEpoch(e, st);
      r.events == n.events &&
      (n.result.Ok? ==> r.st == n.st.(next := Some(n.result.value)) && r.result == Ok(st.next)) &&
      (n.result.Err? ==> r.st == n.st && r.result == Err(n.result.error))
  {
  }

  /** A flop against the database succeeds exactly when the epoch query is
      accepted and finds a row; it then reads the next epoch reply, stores it as
      the last epoch, and the following flop yields that stored epoch. */
  lemma FlopEpochCaptures(e: Env, st: St)
    requires !e.dry
    ensures var f := FlopEpoch(e, st);
      f.result.Ok? <==> EpochQuery(e) !in e.conn.rejects && e.conn.epochAt(st.epochs).Some?
    ensures var f := FlopEpoch(e, st);
      f.result.Ok? ==>
        f.st.epochs == st.epochs + 1 && LastEpoch(f.st) == e.conn.epochAt(st.epochs) &&
        (FlopEpoch(e, f.st).result.Ok? ==> FlopEpoch(e, f.st).result.value == e.conn.epochAt(st.epochs))
  {
    var n := NextEpoch(e, st);
    var f := FlopEpoch(e, st);
    NextEpochReads(e, st);
    FlopEpochStores(e, st);
    if f.result.Ok? {
      assert n.result.Ok?;
      var f2 := FlopEpoch(e, f.st);
      assert f2.result.Ok? ==> f2.result.value == f.st.next;
    }
  }

  /** `paged_copy`: one flop, then the page loop from id 0. */
  function PagedCopy(e: Env, st: St): (r: Run)
    requires e.conn.Sane()
    ensures NoPause(r.events)
  {
    var f := FlopEpoch(e, st);
    if f.result.Err? then Run(f.events, f.st, Fail(f.result.error))
    else
      var p := PagedLoop(e.conn, e.dry, PageFn(e), MaxIdQuery(e), f.st.maxIds, 0);
      Run(f.events + p.events, f.st.(maxIds := p.seen), p.out)
  }

  /** `paged_delta_copy`: flop, select the ids changed since the epoch the flop
      yielded (none under a dry run), then one statement per group of ids. */
  function PagedDeltaCopy(e: Env, st: St): (r: Run)
    ensures r.st.clock == st.clock
    ensures NoPause(r.events)
  {
    var f := FlopEpoch(e, st);
    if f.result.Err? then Run(f.events, f.st, Fail(f.result.error))
    else
      var q := UpdatedIdsQuery(e, f.result.value);
      if !e.dry && q in e.conn.rejects then Run(f.events + [Query(q)], f.st, Fail(ExecutionFailed(q)))
      else
        var ids := if e.dry then [] else e.conn.idsAt(f.st.idLists);
        var st1 := if e.dry then f.st else f.st.(idLists := f.st.idLists + 1);
        var x := ExecAll(e.dry, e.conn.rejects, DeltaStatements(e, ids));
        Run(f.events + [Query(q)] + x.events, st1, x.out)
  }

  /** `multi_pass_delta_copy` from pass number `pass`: a delta pass, then stop
      when it took at most `DELTA_CONTINUE_THRESHOLD` seconds or was the last
      allowed pass. */
  function MultiPass(e: Env, st: St, pass: nat): (r: Run)
    requires 1 <= pass <= MaxDeltaPasses
    decreases MaxDeltaPasses - pass, 1
  {
    AfterPass(e, PagedDeltaCopy(e, st), pass)
  }

  /** What the delta passes do after pass number `pass` ended as `d`: stop on a
      failure; otherwise time the pass, and stop when it was fast enough or the
      last allowed, or else make the next pass. */
  function AfterPass(e: Env, d: Run, pass: nat): (r: Run)
    requires 1 <= pass <= MaxDeltaPasses
    decreases MaxDeltaPasses - pass, 0
  {
    if d.out.Fail? then d
    else
      var elapsed := e.elapsedAt(d.st.clock);
      var st1 := d.st.(clock := d.st.clock + 1);
      if elapsed <= DeltaContinueThreshold || pass == MaxDeltaPasses then Run(d.events, st1, Pass)
      else
        var rest := MultiPass(e, st1, pass + 1);
        Run(d.events + rest.events, rest.st, rest.out)
  }

  /** `full_delta_copy`: the final delta since the stored epoch. */
  function FullDeltaCopy(e: Env, st: St): Steps {
    ExecAll(e.dry, e.conn.rejects, [FullDeltaQuery(e, LastEpoch(st))])
  }

  /** `up!` up to the row probe: the copy table and its schema changes when
      `create_temp_table` is set, then, outside a dry run, one probe for a row. */
  function Prepare(e: Env): (r: Steps)
    ensures NoPause(r.events)
  {
    var c := if e.createTemp then ExecAll(e.dry, e.conn.rejects, CreateStatements(e)) else Steps([], Pass);
    if c.out.Fail? || e.dry then c
    else
      var probe := ExecAll(false, e.conn.rejects, [ProbeQuery(e)]);
      Steps(c.events + probe.events, probe.out)
  }

  /** The copying part of `up!` for a table with rows: the paged copy when
      `create_temp_table` is set, then the delta passes when `multi_pass` is. */
  function Copies(e: Env, st: St): (r: Run)
    requires e.conn.Sane()
    ensures !e.createTemp && !e.multiPass ==> r == Run([], st, Pass)
  {
    var p := if e.createTemp then PagedCopy(e, st) else Run([], st, Pass);
    if p.out.Fail? then p
    else
      var m := if e.multiPass then MultiPass(e, p.st, 1) else Run([], p.st, Pass);
      Run(p.events + m.events, m.st, m.out)
  }

  /** The rest of `up!` for a table with rows: the copying, the settle pause
      after it when either option is set, then the final delta and the swap
      under one lock. */
  function CopyAndSwap(e: Env, st: St): (r: Run)
    requires e.conn.Sane()
    ensures Pause in r.events ==> e.createTemp || e.multiPass
    ensures r.out.Pass? && (e.createTemp || e.multiPass) ==> Pause in r.events
  {
    var c := Copies(e, st);
    if c.out.Fail? then c
    else
      var pause := if e.createTemp || e.multiPass then [Pause] else [];
      var lock := LockedEnsure(e.dry, e.conn.rejects, e.table, e.newTable,
                               ExecAll(e.dry, e.conn.rejects, SwapStatements(e, LastEpoch(c.st))));
      Run(c.events + pause + lock.events, c.st, lock.out)
  }

  /** The part of `up!` for an empty table: the whole copy and the swap under one lock. */
  function EmptySwap(e: Env): (r: Steps)
    ensures NoPause(r.events)
  {
    LockedEnsure(e.dry, e.conn.rejects, e.table, e.newTable, ExecAll(e.dry, e.conn.rejects, EmptySwapStatements(e)))
  }

  /** `up!`. */
  function Up(e: Env, st: St): (r: Run)
    requires e.conn.Sane()
    ensures Pause in r.events ==> (e.dry || e.conn.hasRows) && (e.createTemp || e.multiPass)
    ensures Prepare(e).out.Fail? ==> r == Run(Prepare(e).events, st, Prepare(e).out)
    ensures !e.dry && !e.conn.hasRows ==> r.st == st
  {
    var pre := Prepare(e);
    if pre.out.Fail? then Run(pre.events, st, pre.out)
    else if e.dry || e.conn.hasRows then
      var x := CopyAndSwap(e, st);
      Run(pre.events + x.events, x.st, x.out)
    else
      var lock := EmptySwap(e);
      Run(pre.events + lock.events, st, lock.out)
  }

  /** `down!`. */
  function Down(e: Env): (r: Steps)
    ensures NoPause(r.events)
  {
    LockedEnsure(e.dry, e.conn.rejects, e.table, e.oldTable, ExecAll(e.dry, e.conn.rejects, DownStatements(e)))
  }

  // What the phases guarantee.

  /** A dry run of `up!` cannot fail, and nothing of it reaches the connection. */
  lemma DryRunUpSucceeds(e: Env, st: St)
    requires e.conn.Sane() && e.dry
    ensures Up(e, st).out.Pass?
    ensures Sent(e.dry, Up(e, st).events) == []
  {
    if e.createTemp && e.multiPass {
      MultiPassDry(e, PagedCopy(e, st).st, 1);
    } else if e.multiPass {
      MultiPassDry(e, st, 1);
    }
  }

  lemma {:induction false} MultiPassDry(e: Env, st: St, pass: nat)
    requires e.dry && 1 <= pass <= MaxDeltaPasses
    ensures MultiPass(e, st, pass).out.Pass?
    decreases MaxDeltaPasses - pass
  {
    var d := PagedDeltaCopy(e, st);
    assert InGroupsOf([], DeltaPageSize) == [];
    assert d.out.Pass?;
    if !(e.elapsedAt(d.st.clock) <= DeltaContinueThreshold || pass == MaxDeltaPasses) {
      MultiPassDry(e, d.st.(clock := d.st.clock + 1), pass + 1);
    }
  }

  /** The settle pause is taken only when `create_temp_table` or `multi_pass` is
      set, and a run that copies rows and succeeds takes it whenever one is. */
  lemma PauseOnlyWithOptions(e: Env, st: St)
    requires e.conn.Sane()
    ensures Pause in Up(e, st).events ==> e.createTemp || e.multiPass
    ensures Up(e, st).out.Pass? && (e.dry || e.conn.hasRows) && (e.createTemp || e.multiPass) ==>
      Pause in Up(e, st).events
  {
  }

  /** A successful `up!` over a table with rows ends with one lock on the table
      and its copy, inside which the final delta is copied, the table is renamed
      to the old name and the copy to the table's name, then COMMIT, UNLOCK and
      the autocommit restore. */
  lemma UpSwapsUnderOneLock(e: Env, st: St)
    requires e.conn.Sane()
    requires (e.dry || e.conn.hasRows) && Up(e, st).out.Pass?
    ensures var r := Up(e, st); var tail := SwapEvents(e, LastEpoch(r.st));
      |tail| <= |r.events| && r.events[|r.events| - |tail|..] == tail
  {
    var head := UpHead(e, st);
    EndsWith(head, SwapEvents(e, LastEpoch(Up(e, st).st)));
  }

  /** The events of the locked swap over the epoch stored last. */
  function SwapEvents(e: Env, epoch: Option<Epoch>): seq<Event> {
    ExecEvents(LockPrelude(e.table, e.newTable) + SwapStatements(e, epoch) + LockPostlude + [RestoreAutocommit])
  }

  lemma Assoc<T>(a: seq<T>, b: seq<T>, c: seq<T>)
    ensures a + (b + c) == (a + b) + c
  {
  }

  lemma EndsWith<T>(b: seq<T>, c: seq<T>)
    ensures |c| <= |b + c| && (b + c)[|b + c| - |c|..] == c
  {
  }

  lemma UpHead(e: Env, st: St) returns (head: seq<Event>)
    requires e.conn.Sane()
    requires (e.dry || e.conn.hasRows) && Up(e, st).out.Pass?
    ensures Up(e, st).events == head + SwapEvents(e, LastEpoch(Up(e, st).st))
  {
    var pre := Prepare(e);
    var x := CopyAndSwap(e, st);
    assert Up(e, st) == Run(pre.events + x.events, x.st, x.out);
    var h := CopyAndSwapTail(e, st);
    head := pre.events + h;
    Assoc(pre.events, h, SwapEvents(e, LastEpoch(x.st)));
  }

  lemma CopyAndSwapTail(e: Env, st: St) returns (head: seq<Event>)
    requires e.conn.Sane() && CopyAndSwap(e, st).out.Pass?
    ensures var x := CopyAndSwap(e, st);
      x.events == head + SwapEvents(e, LastEpoch(x.st))
  {
    var c := Copies(e, st);
    var pause: seq<Event> := if e.createTemp || e.multiPass then [Pause] else [];
    LockedRunSuccess(e.dry, e.conn.rejects, e.table, e.newTable, SwapStatements(e, LastEpoch(c.st)));
    head := c.events + pause;
  }

  /** A successful `up!` over an empty table copies everything and swaps under
      the same lock, with no paged copy and no pause before it. */
  lemma UpEmptyTable(e: Env, st: St)
    requires e.conn.Sane()
    requires !e.dry && !e.conn.hasRows && Up(e, st).out.Pass?
    ensures var c := if e.createTemp then CreateStatements(e) else [];
      Up(e, st).events == ExecEvents(c + [ProbeQuery(e)] +
        LockPrelude(e.table, e.newTable) + EmptySwapStatements(e) + LockPostlude + [RestoreAutocommit])
    ensures Up(e, st).st == st
  {
    var cs := if e.createTemp then CreateStatements(e) else [];
    var pre := Prepare(e);
    var lock := EmptySwap(e);
    assert Up(e, st) == Run(pre.events + lock.events, st, lock.out);
    PrepareSuccess(e);
    LockedRunSuccess(e.dry, e.conn.rejects, e.table, e.newTable, EmptySwapStatements(e));
    var tail := LockPrelude(e.table, e.newTable) + EmptySwapStatements(e) + LockPostlude + [RestoreAutocommit];
    ExecEventsAppend(cs + [ProbeQuery(e)], tail);
    Regroup(cs + [ProbeQuery(e)], LockPrelude(e.table, e.newTable), EmptySwapStatements(e), LockPostlude, [RestoreAutocommit]);
  }

  lemma Regroup<T>(x: seq<T>, a: seq<T>, b: seq<T>, c: seq<T>, d: seq<T>)
    ensures x + (a + b + c + d) == x + a + b + c + d
  {
  }

  /** Outside a dry run, a preparation that succeeds issued the creation
      statements when asked for, then the probe, and nothing else. */
  lemma PrepareSuccess(e: Env)
    requires !e.dry && Prepare(e).out.Pass?
    ensures Prepare(e).events == ExecEvents((if e.createTemp then CreateStatements(e) else []) + [ProbeQuery(e)])
  {
    var cs := if e.createTemp then CreateStatements(e) else [];
    ExecAllEnds(e.dry, e.conn.rejects, cs);
    ExecAllEnds(false, e.conn.rejects, [ProbeQuery(e)]);
    ExecEventsAppend(cs, [ProbeQuery(e)]);
  }

  /** `down!` renames the table to the copy's name and the old table back, drops
      the copy, all under one lock on the table and the old table; autocommit is
      restored last whatever happens. */
  lemma DownShape(e: Env)
    ensures Down(e).events != [] && Down(e).events[|Down(e).events| - 1] == Exec(RestoreAutocommit)
    ensures Down(e).out.Pass? ==>
      Down(e).events == ExecEvents(LockPrelude(e.table, e.oldTable) + DownStatements(e) + LockPostlude + [RestoreAutocommit])
  {
    var body := ExecAll(e.dry, e.conn.rejects, DownStatements(e));
    LockedEnsureRestoresLast(e.dry, e.conn.rejects, e.table, e.oldTable, body);
    LockedRunSuccess(e.dry, e.conn.rejects, e.table, e.oldTable, DownStatements(e));
  }

  /** `paged_copy` flops the epoch before its first page: under a dry run it
      issues exactly one page and stores the sentinel; otherwise the epoch query
      comes first and, when it succeeds, the page after id 0 next. */
  lemma PagedCopyFlopsFirst(e: Env, st: St)
    requires e.conn.Sane()
    ensures e.dry ==> PagedCopy(e, st) == Run([Exec(PagedCopyQuery(e, 0))], st.(next := Some(ZeroTime)), Pass)
    ensures !e.dry ==> PagedCopy(e, st).events[0] == Query(EpochQuery(e))
    ensures !e.dry && FlopEpoch(e, st).result.Ok? ==>
      |PagedCopy(e, st).events| > 1 && PagedCopy(e, st).events[1] == Exec(PagedCopyQuery(e, 0)) &&
      PagedCopy(e, st).st.next == FlopEpoch(e, st).st.next
  {
  }

  /** How many delta passes `multi_pass_delta_copy` makes from pass number
      `pass` when every pass succeeds: it stops after the first one timed at
      most `DELTA_CONTINUE_THRESHOLD` seconds, or after pass `MAX_DELTA_PASSES`. */
  function PassCount(elapsedAt: nat -> int, clock: nat, pass: nat): nat
    requires 1 <= pass <= MaxDeltaPasses
    decreases MaxDeltaPasses - pass
  {
    if elapsedAt(clock) <= DeltaContinueThreshold || pass == MaxDeltaPasses then 1
    else 1 + PassCount(elapsedAt, clock + 1, pass + 1)
  }

  /** The count's step rule: one pass when it is fast or the last allowed,
      otherwise one more than from the next pass on. */
  lemma PassCountStep(elapsedAt: nat -> int, clock: nat, pass: nat)
    requires 1 <= pass <= MaxDeltaPasses
    ensures elapsedAt(clock) <= DeltaContinueThreshold || pass == MaxDeltaPasses ==>
      PassCount(elapsedAt, clock, pass) == 1
    ensures !(elapsedAt(clock) <= DeltaContinueThreshold || pass == MaxDeltaPasses) ==>
      PassCount(elapsedAt, clock, pass) == 1 + PassCount(elapsedAt, clock + 1, pass + 1)
  {
  }

  /** Between one pass and the passes left; every pass but the last was slow,
      and the last one was fast or the last allowed. */
  lemma {:induction false} PassCountBounds(elapsedAt: nat -> int, clock: nat, pass: nat)
    requires 1 <= pass <= MaxDeltaPasses
    ensures var n := PassCount(elapsedAt, clock, pass);
      1 <= n <= MaxDeltaPasses - pass + 1 &&
      (forall k :: clock <= k < clock + n - 1 ==> elapsedAt(k) > DeltaContinueThreshold) &&
      (elapsedAt(clock + n - 1) <= DeltaContinueThreshold || n == MaxDeltaPasses - pass + 1)
    decreases MaxDeltaPasses - pass
  {
    if !(elapsedAt(clock) <= DeltaContinueThreshold || pass == MaxDeltaPasses) {
      PassCountBounds(elapsedAt, clock + 1, pass + 1);
    }
  }

  /** A successful `multi_pass_delta_copy` times exactly that many passes. */
  lemma {:induction false} MultiPassCount(e: Env, st: St, pass: nat)
    requires 1 <= pass <= MaxDeltaPasses
    ensures MultiPass(e, st, pass).out.Pass? ==>
      MultiPass(e, st, pass).st.clock == st.clock + PassCount(e.elapsedAt, st.clock, pass)
    decreases MaxDeltaPasses - pass, 2
  {
    AfterPassCount(e, PagedDeltaCopy(e, st), pass);
  }

  lemma {:induction false} AfterPassCount(e: Env, d: Run, pass: nat)
    requires 1 <= pass <= MaxDeltaPasses
    ensures AfterPass(e, d, pass).out.Pass? ==>
      AfterPass(e, d, pass).st.clock == d.st.clock + PassCount(e.elapsedAt, d.st.clock, pass)
    decreases MaxDeltaPasses - pass, 1
  {
    if d.out.Pass? && !(e.elapsedAt(d.st.clock) <= DeltaContinueThreshold || pass == MaxDeltaPasses) {
      AfterPassGoesOnCount(e, d, pass);
    } else {
      AfterPassStep(e, d, pass);
      PassCountStep(e.elapsedAt, d.st.clock, pass);
    }
  }

  lemma {:induction false} AfterPassGoesOnCount(e: Env, d: Run, pass: nat)
    requires 1 <= pass <= MaxDeltaPasses
    requires d.out.Pass? && !(e.elapsedAt(d.st.clock) <= DeltaContinueThreshold || pass == MaxDeltaPasses)
    ensures AfterPass(e, d, pass).out.Pass? ==>
      AfterPass(e, d, pass).st.clock == d.st.clock + PassCount(e.elapsedAt, d.st.clock, pass)
    decreases MaxDeltaPasses - pass, 0
  {
    AfterPassGoesOn(e, d, pass);
    PassCountStep(e.elapsedAt, d.st.clock, pass);
    MultiPassCount(e, d.st.(clock := d.st.clock + 1), pass + 1);
  }

  /** How the delta passes go on after one pass `d`: they end with a pass that
      fails, stop after a fast pass or the last one allowed, and otherwise make
      the next pass with the clock one tick on. */
  lemma AfterPassStep(e: Env, d: Run, pass: nat)
    requires 1 <= pass <= MaxDeltaPasses
    ensures d.out.Fail? ==> AfterPass(e, d, pass) == d
    ensures d.out.Pass? && (e.elapsedAt(d.st.clock) <= DeltaContinueThreshold || pass == MaxDeltaPasses) ==>
      AfterPass(e, d, pass) == Run(d.events, d.st.(clock := d.st.clock + 1), Pass)
    ensures d.out.Pass? && !(e.elapsedAt(d.st.clock) <= DeltaContinueThreshold || pass == MaxDeltaPasses) ==>
      var rest := MultiPass(e, d.st.(clock := d.st.clock + 1), pass + 1);
      AfterPass(e, d, pass) == Run(d.events + rest.events, rest.st, rest.out)
  {
  }

  lemma AfterPassGoesOn(e: Env, d: Run, pass: nat)
    requires 1 <= pass <= MaxDeltaPasses
    requires d.out.Pass? && !(e.elapsedAt(d.st.clock) <= DeltaContinueThreshold || pass == MaxDeltaPasses)
    ensures var rest := MultiPass(e, d.st.(clock := d.st.clock + 1), pass + 1);
      AfterPass(e, d, pass).st == rest.st && AfterPass(e, d, pass).out == rest.out
  {
    AfterPassStep(e, d, pass);
  }

  /** How `multi_pass_delta_copy` goes on after one pass: it ends with a pass
      that fails, stops after a fast pass or the last one allowed, and
      otherwise makes the next pass with the clock one tick on. */
  lemma MultiPassStep(e: Env, st: St, pass: nat)
    requires 1 <= pass <= MaxDeltaPasses
    ensures var d := PagedDeltaCopy(e, st); d.out.Fail? ==> MultiPass(e, st, pass) == d
    ensures var d := PagedDeltaCopy(e, st);
      d.out.Pass? && (e.elapsedAt(st.clock) <= DeltaContinueThreshold || pass == MaxDeltaPasses) ==>
        MultiPass(e, st, pass) == Run(d.events, d.st.(clock := st.clock + 1), Pass)
    ensures var d := PagedDeltaCopy(e, st);
      d.out.Pass? && !(e.elapsedAt(st.clock) <= DeltaContinueThreshold || pass == MaxDeltaPasses) ==>
        var rest := MultiPass(e, d.st.(clock := st.clock + 1), pass + 1);
        MultiPass(e, st, pass) == Run(d.events + rest.events, rest.st, rest.out)
  {
    var d := PagedDeltaCopy(e, st);
    if d.out.Pass? {
      if e.elapsedAt(st.clock) <= DeltaContinueThreshold || pass == MaxDeltaPasses {
        MultiPassStops(e, st, pass);
      } else {
        MultiPassGoesOn(e, st, pass);
      }
    }
  }

  lemma MultiPassStops(e: Env, st: St, pass: nat)
    requires 1 <= pass <= MaxDeltaPasses
    requires PagedDeltaCopy(e, st).out.Pass?
    requires e.elapsedAt(st.clock) <= DeltaContinueThreshold || pass == MaxDeltaPasses
    ensures var d := PagedDeltaCopy(e, st);
      MultiPass(e, st, pass) == Run(d.events, d.st.(clock := st.clock + 1), Pass)
  {
    AfterPassStep(e, PagedDeltaCopy(e, st), pass);
  }

  lemma MultiPassGoesOn(e: Env, st: St, pass: nat)
    requires 1 <= pass <= MaxDeltaPasses
    requires PagedDeltaCopy(e, st).out.Pass?
    requires !(e.elapsedAt(st.clock) <= DeltaContinueThreshold || pass == MaxDeltaPasses)
    ensures var d := PagedDeltaCopy(e, st); var rest := MultiPass(e, d.st.(clock := st.clock + 1), pass + 1);
      MultiPass(e, st, pass) == Run(d.events + rest.events, rest.st, rest.out)
  {
    AfterPassStep(e, PagedDeltaCopy(e, st), pass);
  }
}
