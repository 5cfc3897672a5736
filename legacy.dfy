/**
 * The older, monolithic `TableMigrator` class. Every method is proved to issue
 * exactly the events, leave exactly the state and end exactly as the matching
 * function of `LegacyRuns` says, and to pass to the connection only what
 * `Sent` lets through: nothing under a dry run.
 */
module Legacy {
  import opened Wrappers
  import opened Db
  import opened Plan
  import Config
  import Names
  import Base
  import L = LegacyRuns
  import E = CopyEngine

  /** The check `initialize` makes: a dry run, or a table that has the delta column. */
  predicate Admissible(config: Config.Config, conn: Connection) {
    Config.DryRun(config) || Config.LegacyDeltaColumn(config) in conn.columns
  }

  class Migrator {
    const table: string
    /** The caller's options over the default `dry_run: true`. */
    const config: Config.Config
    const conn: Connection
    /** The elapsed seconds of each timed delta pass in turn. */
    const elapsedAt: nat -> int
    /** The successive readings of `Time.now.utc` a dry run takes as epochs. */
    const nowAt: nat -> Epoch
    /** `schema_changes`: starts empty; callers assign it. */
    var schemaChanges: seq<string>
    /** `@base_copy_query`. */
    var baseCopyQueryMemo: Option<string>
    /** `@on_duplicate_update_map`. */
    var updateMapMemo: Option<string>
    /** `@next_epoch`: nil until the first flop. */
    var nextEpoch: Option<Epoch>
    /** How many delta passes have been timed. */
    var clock: nat
    /** How many times a dry run has read the clock. */
    var nows: nat
    /** Every `execute` and `select_all` call made so far, prepared, and the settle pauses. */
    ghost var issued: seq<Event>

    constructor (table: string, supplied: Config.Config, conn: Connection, elapsedAt: nat -> int, nowAt: nat -> Epoch)
      requires Admissible(Config.LegacyConfig(supplied), conn)
      ensures this.table == table && config == Config.LegacyConfig(supplied) && this.conn == conn
      ensures this.elapsedAt == elapsedAt && this.nowAt == nowAt
      ensures schemaChanges == [] && baseCopyQueryMemo == None && updateMapMemo == None
      ensures nextEpoch == None && clock == 0 && nows == 0 && issued == []
    {
      this.table, this.conn := table, conn;
      config := Config.LegacyConfig(supplied);
      this.elapsedAt, this.nowAt := elapsedAt, nowAt;
      schemaChanges := [];
      baseCopyQueryMemo, updateMapMemo := None, None;
      nextEpoch := None;
      clock, nows := 0, 0;
      issued := [];
    }

    /** `TableMigrator.new(table, config)`: refused unless dry-run is on, which
        it is by default, or the table has the delta column. */
    static method New(table: string, supplied: Config.Config, conn: Connection, elapsedAt: nat -> int, nowAt: nat -> Epoch)
        returns (r: Result<Migrator, Error>)
      ensures r.Ok? <==> Admissible(Config.LegacyConfig(supplied), conn)
      ensures r.Err? ==> r.error == MissingDeltaColumn(table, Config.LegacyDeltaColumn(Config.LegacyConfig(supplied)))
      ensures r.Ok? ==>
        fresh(r.value) && r.value.table == table && r.value.config == Config.LegacyConfig(supplied) &&
        r.value.conn == conn && r.value.schemaChanges == [] && r.value.baseCopyQueryMemo == None &&
        r.value.updateMapMemo == None && r.value.nextEpoch == None && r.value.issued == []
    {
      var config := Config.LegacyConfig(supplied);
      if !Admissible(config, conn) {
        return Err(MissingDeltaColumn(table, Config.LegacyDeltaColumn(config)));
      }
      var m := new Migrator(table, supplied, conn, elapsedAt, nowAt);
      r := Ok(m);
    }

    /** `dry_run?`. */
    predicate DryRun() {
      Config.DryRun(config)
    }

    /** The template `base_copy_query` gives without arguments in the current state. */
    function CurrentTemplate(): string
      reads this`baseCopyQueryMemo
    {
      if baseCopyQueryMemo.Some? then baseCopyQueryMemo.value else Base.Template(Base.Quote(conn.columns))
    }

    /** What a run reads from the migrator: its options and names, the current
        template, update map and schema changes, and the oracles. */
    function Env(): L.Env
      reads this`schemaChanges, this`baseCopyQueryMemo, this`updateMapMemo
    {
      L.Env(DryRun(), Config.IsTrue(config, "multi_pass"),
            table, L.OldTableName(table, Names.MigrationName(config)), Config.LegacyDeltaColumn(config),
            CurrentTemplate(), updateMapMemo, schemaChanges, conn, elapsedAt, nowAt)
    }

    function State(): L.St
      reads this`nextEpoch, this`clock, this`nows, conn`maxIdReads, conn`epochReads, conn`idsReads
    {
      L.St(nextEpoch, conn.maxIdReads, conn.epochReads, conn.idsReads, clock, nows)
    }

    /** Since the method's start the migrator issued `events`, is now in state
        `st`, and the connection received what of `events` a run with the
        settings `e` lets through. */
    twostate predicate Did(e: L.Env, events: seq<Event>, st: L.St)
      reads this`issued, this`nextEpoch, this`clock, this`nows, conn`log, conn`maxIdReads, conn`epochReads, conn`idsReads
    {
      issued == old(issued) + events && State() == st &&
      conn.log == old(conn.log) + Sent(e.dry, events)
    }

    /** `self.schema_changes = changes`. */
    method SetSchemaChanges(changes: seq<string>)
      modifies this`schemaChanges
      ensures schemaChanges == changes
      ensures Env() == old(Env()).(changes := changes)
    {
      schemaChanges := changes;
    }

    /** `self.on_duplicate_update_map = updates`. */
    method SetOnDuplicateUpdateMap(updates: string)
      modifies this`updateMapMemo
      ensures updateMapMemo == Some(updates)
      ensures Env() == old(Env()).(updateMap := Some(updates))
    {
      updateMapMemo := Some(updates);
    }

    /** `base_copy_query(columns = nil)`. Columns passed in stand, as given, on
        both sides of the statement and replace the memo; without columns an
        existing memo is returned as it is, and otherwise the template is built
        from the table's quoted column names and kept. */
    method BaseCopyQuery(columns: Option<seq<string>>) returns (q: string)
      modifies this`baseCopyQueryMemo
      ensures baseCopyQueryMemo == Some(q)
      ensures columns.Some? ==> q == Base.Template(columns.value)
      ensures columns.None? ==> q == old(CurrentTemplate()) && Env() == old(Env())
    {
      if columns.Some? {
        baseCopyQueryMemo := None;
      }
      var cols := if columns.Some? then columns.value else Base.Quote(conn.columns);
      if baseCopyQueryMemo.None? {
        baseCopyQueryMemo := Some(Base.Template(cols));
      }
      q := baseCopyQueryMemo.value;
    }

    /** `on_duplicate_update_map(columns = nil)`: columns passed in discard the
        memo; a missing memo is then rebuilt from `common_cols`, which raises
        NameError. */
    method OnDuplicateUpdateMap(columns: Option<seq<string>>) returns (r: Result<string, Error>)
      modifies this`updateMapMemo
      ensures columns.Some? ==> updateMapMemo == None && r == Err(UndefinedName("common_cols"))
      ensures columns.None? ==> updateMapMemo == old(updateMapMemo) && r == L.UpdateMap(Env())
    {
      if columns.Some? {
        updateMapMemo := None;
      }
      r := L.UpdateMap(Env());
    }

    /** `execute(sql)`: prepared and issued always, sent only outside a dry
        run, and failing exactly when it is sent and rejected. */
    method Execute(e: L.Env, sql: string) returns (r: Outcome<Error>)
      requires e.conn == conn
      modifies this`issued, conn`log
      ensures var p := L.PrepareSql(e, sql);
        Did(e, [Exec(p)], old(State())) && r == if !e.dry && p in conn.rejects then Fail(ExecutionFailed(p)) else Pass
    {
      r := Issue(e, L.PrepareSql(e, sql));
    }

    /** The part of `execute` after `prepare_sql`, on a prepared statement. */
    method Issue(e: L.Env, p: string) returns (r: Outcome<Error>)
      requires e.conn == conn
      modifies this`issued, conn`log
      ensures Did(e, [Exec(p)], old(State())) && r == if !e.dry && p in conn.rejects then Fail(ExecutionFailed(p)) else Pass
    {
      issued := issued + [Exec(p)];
      if e.dry {
        r := Pass;
      } else {
        r := conn.Execute(p);
      }
    }

    /** One `execute` after another, stopping at the first that fails. */
    method ExecuteAll(e: L.Env, stmts: seq<string>) returns (r: Outcome<Error>)
      requires e.conn == conn
      modifies this`issued, conn`log
      ensures var x := L.Execs(e, stmts); Did(e, x.events, old(State())) && r == x.out
    {
      r := IssueAll(e, L.PrepareAll(e, stmts));
    }

    /** `execute` on each of the prepared statements `stmts` in turn, up to the first that fails. */
    method IssueAll(e: L.Env, stmts: seq<string>) returns (r: Outcome<Error>)
      requires e.conn == conn
      modifies this`issued, conn`log
      ensures var x := ExecAll(e.dry, conn.rejects, stmts); Did(e, x.events, old(State())) && r == x.out
    {
      ghost var dry, rejects := e.dry, conn.rejects;
      ghost var done: seq<string> := [];
      var i := 0;
      while i < |stmts|
        invariant 0 <= i <= |stmts| && done == stmts[..i]
        invariant forall j :: 0 <= j < i ==> dry || stmts[j] !in rejects
        invariant issued == old(issued) + ExecEvents(done)
        invariant State() == old(State())
        invariant conn.log == old(conn.log) + Sent(dry, ExecEvents(done))
      {
        r := Issue(e, stmts[i]);
        E.ExecStep(dry, old(issued), old(conn.log), done, stmts[i]);
        done := done + [stmts[i]];
        E.PrefixStep(stmts, i);
        if r.Fail? {
          E.StopsAt(dry, rejects, stmts, i);
          return;
        }
        i := i + 1;
      }
      assert done == stmts;
      E.RunsThrough(dry, rejects, stmts);
      r := Pass;
    }

    /** `next_epoch`: the epoch query is issued either way; a dry run sends
        nothing and takes the clock's reading. */
    method NextEpoch(e: L.Env) returns (r: Result<Epoch, Error>)
      requires e.conn == conn
      modifies this`issued, this`nows, conn`log, conn`epochReads
      ensures var x := L.NextEpoch(e, old(State())); Did(e, x.events, x.st) && r == x.result
    {
      var q := L.PrepareSql(e, L.EpochQuery(e));
      issued := issued + [Query(q)];
      if e.dry {
        r := Ok(e.nowAt(nows));
        nows := nows + 1;
        return;
      }
      var reply := conn.SelectEpoch(q);
      match reply
      case Err(err) => r := Err(err);
      case Ok(row) => r := if row.None? then Err(NoEpochRow) else Ok(row.value);
    }

    /** `flop_epoch`. */
    method FlopEpoch(e: L.Env) returns (r: Result<Option<Epoch>, Error>)
      requires e.conn == conn
      modifies this`issued, this`nextEpoch, this`nows, conn`log, conn`epochReads
      ensures var x := L.FlopEpoch(e, old(State())); Did(e, x.events, x.st) && r == x.result
    {
      var epoch := nextEpoch;
      var captured := NextEpoch(e);
      if captured.Err? {
        return Err(captured.error);
      }
      nextEpoch := Some(captured.value);
      r := Ok(epoch);
    }

    /** `last_epoch`. */
    function LastEpoch(): Option<Epoch>
      reads this
    {
      nextEpoch
    }

    /** `select_all(q).first.values.first.to_i` on the prepared query
        `select max(id) from :new_table_name`, made only outside a dry run: the
        copy's largest id. */
    method SelectMaxId(e: L.Env, q: string) returns (r: Result<int, Error>)
      requires !e.dry
      requires e.conn == conn
      modifies this`issued, conn`log, conn`maxIdReads
      ensures var st := old(State());
        if q in conn.rejects then Did(e, [Query(q)], st) && r == Err(ExecutionFailed(q))
        else Did(e, [Query(q)], st.(maxIds := st.maxIds + 1)) && r == Ok(conn.maxIdAt(st.maxIds))
    {
      issued := issued + [Query(q)];
      r := conn.SelectMaxId(q);
      assert Sent(false, [Query(q)]) == [Query(q)];
    }

    /** `paged_copy`: flop the epoch, then the page loop. */
    method PagedCopy(e: L.Env) returns (r: Outcome<Error>)
      requires conn.Sane()
      requires e.conn == conn
      modifies this`issued, this`nextEpoch, this`nows, conn`log, conn`epochReads, conn`maxIdReads
      ensures var x := L.PagedCopy(e, old(State())); Did(e, x.events, x.st) && r == x.out
    {
      var f := FlopEpoch(e);
      if f.Err? {
        return Fail(f.error);
      }
      ghost var fx := L.FlopEpoch(e, old(State()));
      ghost var issued1 := issued;
      r := CopyPages(e);
      E.Chain(e.dry, old(issued), old(conn.log), fx.events, issued[|issued1|..]);
    }

    /** The loop of `paged_copy`: copy the page after `start`, read the copy's
        largest id, and stop once that id is the `start` the page began at. */
    method CopyPages(e: L.Env) returns (r: Outcome<Error>)
      requires conn.Sane()
      requires e.conn == conn
      modifies this`issued, conn`log, conn`maxIdReads
      ensures var e := e;
        var w := PagedLoop(conn, e.dry, L.PageFn(e), L.PrepareSql(e, L.MaxIdQuery), old(conn.maxIdReads), 0);
        Did(e, w.events, old(State()).(maxIds := w.seen)) && r == w.out
    {
      ghost var whole := PagedLoop(conn, e.dry, L.PageFn(e), L.PrepareSql(e, L.MaxIdQuery), conn.maxIdReads, 0);
      ghost var done: seq<Event> := [];
      ghost var seen := conn.maxIdReads;
      E.Starts(whole);
      var start := 0;
      while true
        invariant Paging(e, start, seen, whole, done, old(issued), old(conn.log), old(State()))
        decreases conn.idBound - start
      {
        var stop;
        r, stop, start, seen, done := CopyPage(e, start, seen, whole, done, old(issued), old(conn.log), old(State()));
        if stop {
          return;
        }
      }
    }

    /** The page loop is about to copy the page after `start`, with `seen`
        replies to the `max(id)` query read: since the loop began, with the
        migrator in `st0`, it issued `done` and the rest of the loop is what it
        still does. */
    ghost predicate Paging(e: L.Env, start: int, seen: nat, whole: Paged, done: seq<Event>, issued0: seq<Event>, log0: seq<Event>, st0: L.St)
      reads this, conn
    {
      var e := e;
      conn.Sane() && 0 <= start <= conn.maxIdAt(seen) && (e.dry ==> start == 0) &&
      issued == issued0 + done && conn.log == log0 + Sent(e.dry, done) &&
      conn.maxIdReads == seen && State() == st0.(maxIds := seen) &&
      E.Resumes(whole, done, PagedLoop(conn, e.dry, L.PageFn(e), L.PrepareSql(e, L.MaxIdQuery), seen, start))
    }

    /** The page loop has ended: it issued `done` and ended with `r`. */
    ghost predicate PagingDone(e: L.Env, whole: Paged, done: seq<Event>, r: Outcome<Error>, issued0: seq<Event>, log0: seq<Event>, st0: L.St)
      reads this, conn
    {
      issued == issued0 + done && conn.log == log0 + Sent(e.dry, done) &&
      State() == st0.(maxIds := conn.maxIdReads) &&
      whole == Paged(done, conn.maxIdReads, r)
    }

    /** One round of that loop: the page after `start`, then, outside a dry
        run, the query for the copy's largest id. It says whether the loop
        stops there and, when it does not, where the next page starts. */
    method CopyPage(e: L.Env, start: int, ghost seen: nat, ghost whole: Paged, ghost done: seq<Event>,
                    ghost issued0: seq<Event>, ghost log0: seq<Event>, ghost st0: L.St)
        returns (r: Outcome<Error>, stop: bool, next: int, ghost seen': nat, ghost done': seq<Event>)
      requires Paging(e, start, seen, whole, done, issued0, log0, st0)
      requires e.conn == conn
      modifies this`issued, conn`log, conn`maxIdReads
      ensures stop ==> PagingDone(e, whole, done', r, issued0, log0, st0)
      ensures !stop ==> start < next && Paging(e, next, seen', whole, done', issued0, log0, st0)
    {
      E.LoopStep(conn, e.dry, L.PageFn(e), L.PrepareSql(e, L.MaxIdQuery), seen, start, done, whole);
      var copy := L.PagedCopyQuery(e, start);
      assert L.PrepareSql(e, copy) == L.PageFn(e)(start);
      r := Execute(e, copy);
      E.Chain(e.dry, issued0, log0, done, [Exec(L.PrepareSql(e, copy))]);
      done' := done + [Exec(L.PrepareSql(e, copy))];
      if r.Fail? || e.dry {
        return r, true, start, seen, done';
      }
      r, stop, next, seen', done' := ReadMaxId(e, start, seen, whole, done', issued0, log0, st0);
    }

    /** The page after `start` has been copied, outside a dry run, and `done`
        ends with it: what the loop does next is to read the copy's largest id. */
    ghost predicate Copied(e: L.Env, start: int, seen: nat, whole: Paged, done: seq<Event>, issued0: seq<Event>, log0: seq<Event>, st0: L.St)
      reads this, conn
    {
      var e := e;
      var mq := L.PrepareSql(e, L.MaxIdQuery);
      !e.dry && conn.Sane() && 0 <= start <= conn.maxIdAt(seen) &&
      issued == issued0 + done && conn.log == log0 + Sent(e.dry, done) &&
      conn.maxIdReads == seen && State() == st0.(maxIds := seen) &&
      (mq in conn.rejects ==> whole == Paged(done + [Query(mq)], seen, Fail(ExecutionFailed(mq)))) &&
      (mq !in conn.rejects && conn.maxIdAt(seen) == start ==> whole == Paged(done + [Query(mq)], seen + 1, Pass)) &&
      (mq !in conn.rejects && conn.maxIdAt(seen) != start ==>
        start < conn.maxIdAt(seen) <= conn.maxIdAt(seen + 1) &&
        E.Resumes(whole, done + [Query(mq)], PagedLoop(conn, false, L.PageFn(e), mq, seen + 1, conn.maxIdAt(seen))))
    }

    /** The second half of a round: the query for the copy's largest id. */
    method ReadMaxId(e: L.Env, start: int, ghost seen: nat, ghost whole: Paged, ghost done: seq<Event>,
                     ghost issued0: seq<Event>, ghost log0: seq<Event>, ghost st0: L.St)
        returns (r: Outcome<Error>, stop: bool, next: int, ghost seen': nat, ghost done': seq<Event>)
      requires Copied(e, start, seen, whole, done, issued0, log0, st0)
      requires e.conn == conn
      modifies this`issued, conn`log, conn`maxIdReads
      ensures stop ==> PagingDone(e, whole, done', r, issued0, log0, st0)
      ensures !stop ==> start < next && Paging(e, next, seen', whole, done', issued0, log0, st0)
    {
      ghost var mq := L.PrepareSql(e, L.MaxIdQuery);
      var reply := SelectMaxId(e, L.PrepareSql(e, L.MaxIdQuery));
      E.Chain(e.dry, issued0, log0, done, [Query(mq)]);
      done', seen' := done + [Query(mq)], seen + 1;
      if reply.Err? {
        return Fail(reply.error), true, start, seen', done';
      }
      next := reply.value;
      r, stop := Pass, start == next;
    }

    /** `select_all(updated_ids_query(epoch)).map { |r| r['id'].to_i }` on the
        prepared query: no ids under a dry run, where nothing is sent. */
    method SelectIds(e: L.Env, sql: string) returns (r: Result<seq<int>, Error>)
      requires e.conn == conn
      modifies this`issued, conn`log, conn`idsReads
      ensures var st := old(State());
        if e.dry then Did(e, [Query(sql)], st) && r == Ok([])
        else if sql in conn.rejects then Did(e, [Query(sql)], st) && r == Err(ExecutionFailed(sql))
        else Did(e, [Query(sql)], st.(idLists := st.idLists + 1)) && r == Ok(conn.idsAt(st.idLists))
    {
      issued := issued + [Query(sql)];
      if e.dry {
        return Ok([]);
      }
      r := conn.SelectIds(sql);
      assert Sent(false, [Query(sql)]) == [Query(sql)];
    }

    /** The loop of `paged_delta_copy` over the groups of ids: the first
        group's log line needs the update map, then each group's statement runs. */
    method DeltaGroups(e: L.Env, ids: seq<int>) returns (r: Outcome<Error>)
      requires e.conn == conn
      modifies this`issued, conn`log
      ensures var x := L.DeltaGroups(e, ids); Did(e, x.events, old(State())) && r == x.out
    {
      if ids == [] {
        return Pass;
      }
      var updates := L.UpdateMap(e);
      if updates.Err? {
        return Fail(updates.error);
      }
      r := ExecuteAll(e, L.DeltaStatements(e, ids, updates.value));
    }

    /** `paged_delta_copy`: flop the epoch, select the ids changed since the one
        it yields, and copy them in groups of `DELTA_PAGE_SIZE`. */
    method PagedDeltaCopy(e: L.Env) returns (r: Outcome<Error>)
      requires e.conn == conn
      modifies this`issued, this`nextEpoch, this`nows, conn`log, conn`epochReads, conn`idsReads
      ensures var x := L.PagedDeltaCopy(e, old(State())); Did(e, x.events, x.st) && r == x.out
    {
      var f := FlopEpoch(e);
      if f.Err? {
        return Fail(f.error);
      }
      ghost var fx := L.FlopEpoch(e, old(State()));
      var q := L.PrepareSql(e, L.UpdatedIdsQuery(e, f.value));
      var ids := SelectIds(e, q);
      E.Chain(e.dry, old(issued), old(conn.log), fx.events, [Query(q)]);
      if ids.Err? {
        return Fail(ids.error);
      }
      ghost var x := L.DeltaGroups(e, ids.value);
      r := DeltaGroups(e, ids.value);
      E.Chain(e.dry, old(issued), old(conn.log), fx.events + [Query(q)], x.events);
    }

    /** One timed pass of `multi_pass_delta_copy`: a delta copy between two
        `Time.now` readings, and the seconds between them when it succeeds. */
    method TimedPass(e: L.Env) returns (r: Outcome<Error>, elapsed: int)
      requires e.conn == conn
      modifies this`issued, this`nextEpoch, this`nows, this`clock, conn`log, conn`epochReads, conn`idsReads
      ensures var d := L.PagedDeltaCopy(e, old(State()));
        r == d.out &&
        (d.out.Fail? ==> Did(e, d.events, d.st)) &&
        (d.out.Pass? ==> Did(e, d.events, d.st.(clock := d.st.clock + 1)) && elapsed == e.elapsedAt(d.st.clock))
    {
      r := PagedDeltaCopy(e);
      elapsed := 0;
      if r.Pass? {
        elapsed := e.elapsedAt(clock);
        clock := clock + 1;
      }
    }

    /** `multi_pass_delta_copy`: delta passes, each timed, until one takes at
        most `DELTA_CONTINUE_THRESHOLD` seconds or `MAX_DELTA_PASSES` have run. */
    method MultiPassDeltaCopy(e: L.Env) returns (r: Outcome<Error>)
      requires e.conn == conn
      modifies this`issued, this`nextEpoch, this`nows, this`clock, conn`log, conn`epochReads, conn`idsReads
      ensures var x := L.MultiPass(e, old(State()), 1); Did(e, x.events, x.st) && r == x.out
    {
      ghost var st := State();
      ghost var whole := L.MultiPass(e, st, 1);
      ghost var done: seq<Event> := [];
      Begins(whole);
      var pass := 1;
      while true
        invariant Passing(e, pass, st, whole, done, old(issued), old(conn.log))
        decreases MaxDeltaPasses - pass
      {
        var stop;
        r, stop, done, st, pass := Round(e, pass, st, whole, done, old(issued), old(conn.log));
        if stop {
          return;
        }
      }
    }

    /** The delta passes are about to make pass number `pass` in state `st`:
        since they began they issued `done`, and what they still do is the rest
        of `whole`. */
    ghost predicate Passing(e: L.Env, pass: nat, st: L.St, whole: L.Run, done: seq<Event>, issued0: seq<Event>, log0: seq<Event>)
      reads this, conn
    {
      1 <= pass <= MaxDeltaPasses && State() == st &&
      issued == issued0 + done && conn.log == log0 + Sent(e.dry, done) &&
      Continues(whole, done, L.MultiPass(e, st, pass))
    }

    /** The delta passes have ended in state `st`: they issued `done` and ended with `r`. */
    ghost predicate PassingDone(e: L.Env, st: L.St, whole: L.Run, done: seq<Event>, r: Outcome<Error>, issued0: seq<Event>, log0: seq<Event>)
      reads this, conn
    {
      State() == st && issued == issued0 + done && conn.log == log0 + Sent(e.dry, done) &&
      whole == L.Run(done, st, r)
    }

    /** The body of the loop of `multi_pass_delta_copy`, pass number `pass`: a
        timed delta copy, then the decision to stop. */
    method Round(e: L.Env, pass: nat, ghost st: L.St, ghost whole: L.Run, ghost done: seq<Event>, ghost issued0: seq<Event>, ghost log0: seq<Event>)
        returns (r: Outcome<Error>, stop: bool, ghost done': seq<Event>, ghost st': L.St, following: nat)
      requires Passing(e, pass, st, whole, done, issued0, log0)
      requires e.conn == conn
      modifies this`issued, this`nextEpoch, this`nows, this`clock, conn`log, conn`epochReads, conn`idsReads
      ensures stop ==> PassingDone(e, st', whole, done', r, issued0, log0)
      ensures following == pass + 1
      ensures !stop ==> Passing(e, pass + 1, st', whole, done', issued0, log0)
    {
      ghost var events, after, out, next := PassStep(e, st, pass, done, whole);
      var elapsed;
      r, elapsed := TimedPass(e);
      E.Chain(e.dry, issued0, log0, done, events);
      done' := done + events;
      st', following := if r.Fail? then after else next, pass + 1;
      stop := r.Fail? || elapsed <= DeltaContinueThreshold || pass == MaxDeltaPasses;
    }

    /** `create_new_table`: the empty copy of the table, then each schema change. */
    method CreateNewTable(e: L.Env) returns (r: Outcome<Error>)
      requires e.conn == conn
      modifies this`issued, conn`log
      ensures var x := L.Execs(e, L.CreateStatements(e)); Did(e, x.events, old(State())) && r == x.out
    {
      r := ExecuteAll(e, L.CreateStatements(e));
    }

    /** `in_table_lock(t1, t2) { body }`: autocommit off and both tables
        write-locked, the block, COMMIT, UNLOCK and autocommit back on, each
        only when everything before it succeeded. */
    method InTableLock(e: L.Env, t1: string, t2: string, body: seq<string>) returns (r: Outcome<Error>)
      requires e.conn == conn
      modifies this`issued, conn`log
      ensures var x := L.InTableLock(e, t1, t2, body); Did(e, x.events, old(State())) && r == x.out
    {
      ghost var pre, b := L.Execs(e, LockPrelude(t1, t2)), L.Execs(e, body);
      r := ExecuteAll(e, LockPrelude(t1, t2));
      if r.Fail? {
        return;
      }
      r := ExecuteAll(e, body);
      E.Chain(e.dry, old(issued), old(conn.log), pre.events, b.events);
      if r.Fail? {
        return;
      }
      ghost var post := L.Execs(e, LockPostlude + [RestoreAutocommit]);
      r := ExecuteAll(e, LockPostlude + [RestoreAutocommit]);
      E.Chain(e.dry, old(issued), old(conn.log), pre.events + b.events, post.events);
    }

    /** `up!` up to the row probe: `create_new_table`, then, outside a dry run,
        `execute('SELECT * FROM :table_name LIMIT 1')`. */
    method Setup(e: L.Env) returns (r: Outcome<Error>)
      requires e.conn == conn
      modifies this`issued, conn`log
      ensures var x := L.Setup(e); Did(e, x.events, old(State())) && r == x.out
    {
      ghost var c := L.Execs(e, L.CreateStatements(e));
      r := CreateNewTable(e);
      if r.Fail? || e.dry {
        return;
      }
      r := ExecuteAll(e, [L.ProbeQuery]);
      E.Chain(false, old(issued), old(conn.log), c.events, L.Execs(e, [L.ProbeQuery]).events);
    }

    /** `multi_pass_delta_copy if multi_pass?`. */
    method MultiPassIfAsked(e: L.Env) returns (r: Outcome<Error>)
      requires e.conn == conn
      modifies this`issued, this`nextEpoch, this`nows, this`clock, conn`log, conn`epochReads, conn`idsReads
      ensures var m := if e.multiPass then L.MultiPass(e, old(State()), 1) else L.Run([], old(State()), Pass);
        Did(e, m.events, m.st) && r == m.out
    {
      r := Pass;
      if e.multiPass {
        r := MultiPassDeltaCopy(e);
      }
    }

    /** The copying part of `up!`: `paged_copy`, then `multi_pass_delta_copy`
        when `multi_pass` is set. */
    method Copies(e: L.Env) returns (r: Outcome<Error>)
      requires conn.Sane()
      requires e.conn == conn
      modifies this`issued, this`nextEpoch, this`nows, this`clock, conn`log, conn`epochReads, conn`maxIdReads, conn`idsReads
      ensures var x := L.Copies(e, old(State())); Did(e, x.events, x.st) && r == x.out
    {
      ghost var p := L.PagedCopy(e, State());
      r := PagedCopy(e);
      if r.Fail? {
        return;
      }
      ghost var m := if e.multiPass then L.MultiPass(e, p.st, 1) else L.Run([], p.st, Pass);
      r := MultiPassIfAsked(e);
      E.Chain(e.dry, old(issued), old(conn.log), p.events, m.events);
      assert L.Copies(e, old(State())) == L.Run(p.events + m.events, m.st, m.out);
    }

    /** The settle pause of `up!` (`PAUSE_LENGTH` one-second sleeps). */
    method Settle(e: L.Env)
      requires e.conn == conn
      modifies this`issued
      ensures Did(e, [Pause], old(State()))
    {
      issued := issued + [Pause];
      assert Sent(e.dry, [Pause]) == [];
    }

    /** The rest of `up!` for a table with rows: the copying, the pause, then
        `full_delta_copy`, which issues nothing, and both renames inside
        `in_table_lock` on the table and its copy. */
    method CopyAndSwap(e: L.Env) returns (r: Outcome<Error>)
      requires conn.Sane()
      requires e.conn == conn
      modifies this`issued, this`nextEpoch, this`nows, this`clock, conn`log, conn`epochReads, conn`maxIdReads, conn`idsReads
      ensures var x := L.CopyAndSwap(e, old(State())); Did(e, x.events, x.st) && r == x.out
    {
      ghost var c := L.Copies(e, State());
      r := Copies(e);
      if r.Fail? {
        return;
      }
      Settle(e);
      E.Chain(e.dry, old(issued), old(conn.log), c.events, [Pause]);
      ghost var lock := L.InTableLock(e, e.table, L.NewTableOf(e), L.SwapStatements(e));
      r := InTableLock(e, e.table, L.NewTableOf(e), L.SwapStatements(e));
      E.Chain(e.dry, old(issued), old(conn.log), c.events + [Pause], lock.events);
    }

    /** The rest of `up!` for an empty table: the whole copy and both renames
        inside `in_table_lock` on the table and its copy. */
    method EmptySwap(e: L.Env) returns (r: Outcome<Error>)
      requires e.conn == conn
      modifies this`issued, conn`log
      ensures var x := L.EmptySwap(e); Did(e, x.events, old(State())) && r == x.out
    {
      r := InTableLock(e, e.table, L.NewTableOf(e), L.EmptySwapStatements(e));
    }

    /** The branch of `up!` after the probe. */
    method Swap(e: L.Env) returns (r: Outcome<Error>)
      requires e.conn == conn && conn.Sane()
      modifies this`issued, this`nextEpoch, this`nows, this`clock, conn`log, conn`epochReads, conn`maxIdReads, conn`idsReads
      ensures var x := L.Swap(e, old(State())); Did(e, x.events, x.st) && r == x.out
    {
      if e.dry || conn.hasRows {
        r := CopyAndSwap(e);
      } else {
        r := EmptySwap(e);
      }
    }

    /** `up!`. The copy template it reads is the one `base_copy_query` gives. */
    method Up() returns (r: Outcome<Error>)
      requires conn.Sane()
      modifies this`issued, this`nextEpoch, this`nows, this`clock, conn`log, conn`epochReads, conn`maxIdReads, conn`idsReads
      ensures var x := L.Up(Env(), old(State())); Did(Env(), x.events, x.st) && r == x.out
    {
      r := Migrate(Env());
    }

    /** The statements of `up!`: `create_new_table`, the probe, and the branch after it. */
    method Migrate(e: L.Env) returns (r: Outcome<Error>)
      requires e.conn == conn && conn.Sane()
      modifies this`issued, this`nextEpoch, this`nows, this`clock, conn`log, conn`epochReads, conn`maxIdReads, conn`idsReads
      ensures var x := L.Up(e, old(State())); Did(e, x.events, x.st) && r == x.out
    {
      r := Setup(e);
      if r.Fail? {
        return;
      }
      ghost var pre := L.Setup(e);
      ghost var x := L.Swap(e, old(State()));
      r := Swap(e);
      E.Chain(e.dry, old(issued), old(conn.log), pre.events, x.events);
    }

    /** `down!`: under a lock on the table and the old table, the table goes
        back to the copy's name, the old table to the table's name, and the copy
        is dropped. */
    method Down() returns (r: Outcome<Error>)
      modifies this`issued, conn`log
      ensures var x := L.Down(Env()); Did(Env(), x.events, old(State())) && r == x.out
    {
      var e := Env();
      r := InTableLock(e, e.table, e.oldTable, L.DownStatements(e));
    }
  }

  /** The delta passes so far issued `done`, and what they do from here on is `rest`. */
  predicate Continues(whole: L.Run, done: seq<Event>, rest: L.Run) {
    whole == L.Run(done + rest.events, rest.st, rest.out)
  }

  /** Before the first pass nothing has been issued. */
  lemma Begins(whole: L.Run)
    ensures Continues(whole, [], whole)
  {
    assert [] + whole.events == whole.events;
  }

  /** One delta pass: what it issues and leaves, and how the passes end or
      where they resume. */
  lemma PassStep(e: L.Env, st: L.St, pass: nat, done: seq<Event>, whole: L.Run)
      returns (events: seq<Event>, after: L.St, out: Outcome<Error>, next: L.St)
    requires 1 <= pass <= MaxDeltaPasses
    requires Continues(whole, done, L.MultiPass(e, st, pass))
    ensures L.PagedDeltaCopy(e, st) == L.Run(events, after, out)
    ensures next == after.(clock := after.clock + 1)
    ensures out.Fail? ==> whole == L.Run(done + events, after, out)
    ensures out.Pass? && (e.elapsedAt(after.clock) <= DeltaContinueThreshold || pass == MaxDeltaPasses) ==>
      whole == L.Run(done + events, next, Pass)
    ensures out.Pass? && !(e.elapsedAt(after.clock) <= DeltaContinueThreshold || pass == MaxDeltaPasses) ==>
      Continues(whole, done + events, L.MultiPass(e, next, pass + 1))
  {
    var d := L.PagedDeltaCopy(e, st);
    events, after, out := d.events, d.st, d.out;
    next := after.(clock := after.clock + 1);
    assert L.MultiPass(e, st, pass) == L.AfterPass(e, d, pass);
    L.AfterPassStep(e, d, pass);
    if d.out.Pass? && !(e.elapsedAt(d.st.clock) <= DeltaContinueThreshold || pass == MaxDeltaPasses) {
      E.Extend(done, d.events, L.MultiPass(e, next, pass + 1).events);
    }
  }
}
