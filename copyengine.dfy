/**
 * `TableMigrator::CopyEngine`: runs a migration over a strategy. Every method
 * is proved to issue exactly the events, leave exactly the state and end exactly
 * as the matching function of `CopyRuns` says, and to pass to the connection
 * only what `Sent` lets through: nothing under a dry run.
 */
module CopyEngine {
  import opened Wrappers
  import opened Db
  import opened Plan
  import Config
  import RawSql
  import R = CopyRuns

  /** `delta_column.to_s`. */
  function DeltaColumn(c: Config.Config): string {
    Config.ToS(Config.Get(c, "delta_column"))
  }

  /** The check `initialize` makes: a dry run, or a table that has the delta column. */
  predicate Admissible(s: RawSql.Strategy) {
    Config.DryRun(s.config) || DeltaColumn(s.config) in s.conn.columns
  }

  /** What the engine reads from its strategy. */
  function EnvOf(s: RawSql.Strategy, elapsedAt: nat -> int): R.Env {
    R.Env(Config.DryRun(s.config), Config.IsTrue(s.config, "create_temp_table"), Config.IsTrue(s.config, "multi_pass"),
          s.table, s.NewTable(), s.OldTable(), DeltaColumn(s.config),
          s.CopyQuery("REPLACE"), s.ChangeStatements(), s.conn, elapsedAt)
  }

  class Engine {
    const strategy: RawSql.Strategy
    /** The options, names, statements and connection read from the strategy,
        and the elapsed seconds of each timed delta pass in turn (the differences
        of `Time.now` readings). */
    const env: R.Env
    /** `@next_epoch`: nil until the first flop. */
    var nextEpoch: Option<Epoch>
    /** How many delta passes have been timed. */
    var clock: nat
    /** Every `execute` and `select_all` call made so far, and the settle pauses. */
    ghost var issued: seq<Event>

    constructor (strategy: RawSql.Strategy, elapsedAt: nat -> int)
      requires Admissible(strategy)
      ensures this.strategy == strategy && env == EnvOf(strategy, elapsedAt) && Valid()
      ensures nextEpoch == None && clock == 0 && issued == []
    {
      this.strategy := strategy;
      env := EnvOf(strategy, elapsedAt);
      nextEpoch := None;
      clock := 0;
      issued := [];
    }

    /** `CopyEngine.new(strategy)`: refused unless dry-run is on or the table has
        the delta column. */
    static method New(strategy: RawSql.Strategy, elapsedAt: nat -> int) returns (r: Result<Engine, Error>)
      ensures r.Ok? <==> Admissible(strategy)
      ensures r.Err? ==> r.error == MissingDeltaColumn(strategy.table, DeltaColumn(strategy.config))
      ensures r.Ok? ==>
        fresh(r.value) && r.value.strategy == strategy && r.value.env == EnvOf(strategy, elapsedAt) &&
        r.value.nextEpoch == None && r.value.clock == 0 && r.value.issued == []
    {
      if !Admissible(strategy) {
        return Err(MissingDeltaColumn(strategy.table, DeltaColumn(strategy.config)));
      }
      var engine := new Engine(strategy, elapsedAt);
      r := Ok(engine);
    }

    /** The environment is the one read from the strategy. */
    ghost predicate Valid() {
      env == EnvOf(strategy, env.elapsedAt)
    }

    function State(): R.St
      reads this, env.conn
    {
      R.St(nextEpoch, env.conn.maxIdReads, env.conn.epochReads, env.conn.idsReads, clock)
    }

    /** Since the method's start the engine issued `events`, is now in state
        `st`, and the connection received what of `events` a run lets through. */
    twostate predicate Did(events: seq<Event>, st: R.St)
      reads this, env.conn
    {
      issued == old(issued) + events && State() == st &&
      env.conn.log == old(env.conn.log) + Sent(env.dry, events)
    }

    /** `execute(sql)`: issued always, sent only outside a dry run, and failing
        exactly when it is sent and rejected. */
    method Execute(sql: string) returns (r: Outcome<Error>)
      modifies this`issued, env.conn`log
      ensures Did([Exec(sql)], old(State()))
      ensures r == if !env.dry && sql in env.conn.rejects then Fail(ExecutionFailed(sql)) else Pass
    {
      issued := issued + [Exec(sql)];
      if env.dry {
        r := Pass;
      } else {
        r := env.conn.Execute(sql);
      }
    }

    /** One `execute` after another, stopping at the first that fails. */
    method ExecuteAll(stmts: seq<string>) returns (r: Outcome<Error>)
      modifies this`issued, env.conn`log
      ensures var x := ExecAll(env.dry, env.conn.rejects, stmts);
        Did(x.events, old(State())) && r == x.out
    {
      ghost var dry, rejects := env.dry, env.conn.rejects;
      ghost var done: seq<string> := [];
      var i := 0;
      while i < |stmts|
        invariant 0 <= i <= |stmts| && done == stmts[..i]
        invariant forall j :: 0 <= j < i ==> dry || stmts[j] !in rejects
        invariant issued == old(issued) + ExecEvents(done)
        invariant State() == old(State())
        invariant env.conn.log == old(env.conn.log) + Sent(dry, ExecEvents(done))
      {
        r := Execute(stmts[i]);
        ExecStep(dry, old(issued), old(env.conn.log), done, stmts[i]);
        done := done + [stmts[i]];
        PrefixStep(stmts, i);
        if r.Fail? {
          StopsAt(dry, rejects, stmts, i);
          return;
        }
        i := i + 1;
      }
      assert done == stmts;
      RunsThrough(dry, rejects, stmts);
      r := Pass;
    }

    /** `next_epoch`. */
    method NextEpoch() returns (r: Result<Epoch, Error>)
      modifies this`issued, env.conn`log, env.conn`epochReads
      ensures var x := R.NextEpoch(env, old(State())); Did(x.events, x.st) && r == x.result
    {
      if env.dry {
        return Ok(R.ZeroTime);
      }
      var q := R.EpochQuery(env);
      issued := issued + [Query(q)];
      var reply := env.conn.SelectEpoch(q);
      match reply
      case Err(err) => r := Err(err);
      case Ok(row) => r := if row.None? then Err(NoEpochRow) else Ok(row.value);
    }

    /** `flop_epoch`. */
    method FlopEpoch() returns (r: Result<Option<Epoch>, Error>)
      modifies this`issued, this`nextEpoch, env.conn`log, env.conn`epochReads
      ensures var x := R.FlopEpoch(env, old(State())); Did(x.events, x.st) && r == x.result
    {
      var epoch := nextEpoch;
      var captured := NextEpoch();
      if captured.Err? {
        return Err(captured.error);
      }
      nextEpoch := Some(captured.value);
      r := Ok(epoch);
    }

    /** `select_all("select max(id) from ...").first.values.first.to_i`, which
        runs only outside a dry run: the copy's largest id. */
    method SelectMaxId() returns (r: Result<int, Error>)
      requires !env.dry
      modifies this`issued, env.conn`log, env.conn`maxIdReads
      ensures var q := R.MaxIdQuery(env); var st := old(State());
        if q in env.conn.rejects then Did([Query(q)], st) && r == Err(ExecutionFailed(q))
        else Did([Query(q)], st.(maxIds := st.maxIds + 1)) && r == Ok(env.conn.maxIdAt(st.maxIds))
    {
      var q := R.MaxIdQuery(env);
      issued := issued + [Query(q)];
      r := env.conn.SelectMaxId(q);
      assert Sent(false, [Query(q)]) == [Query(q)];
    }

    /** `paged_copy`: flop the epoch, then the page loop. */
    method PagedCopy() returns (r: Outcome<Error>)
      requires env.conn.Sane()
      modifies this`issued, this`nextEpoch, env.conn`log, env.conn`epochReads, env.conn`maxIdReads
      ensures var x := R.PagedCopy(env, old(State())); Did(x.events, x.st) && r == x.out
    {
      var f := FlopEpoch();
      if f.Err? {
        return Fail(f.error);
      }
      ghost var fx := R.FlopEpoch(env, old(State()));
      ghost var issued1, log1 := issued, env.conn.log;
      r := CopyPages();
      Chain(env.dry, old(issued), old(env.conn.log), fx.events, issued[|issued1|..]);
    }

    /** The loop of `paged_copy`: copy the page after `start`, read the copy's
        largest id, and stop once that id is the `start` the page began at. */
    method CopyPages() returns (r: Outcome<Error>)
      requires env.conn.Sane()
      modifies this`issued, env.conn`log, env.conn`maxIdReads
      ensures var w := PagedLoop(env.conn, env.dry, R.PageFn(env), R.MaxIdQuery(env), old(env.conn.maxIdReads), 0);
        Did(w.events, old(State()).(maxIds := w.seen)) && r == w.out
    {
      ghost var whole := PagedLoop(env.conn, env.dry, R.PageFn(env), R.MaxIdQuery(env), env.conn.maxIdReads, 0);
      ghost var done: seq<Event> := [];
      ghost var seen := env.conn.maxIdReads;
      Starts(whole);
      var start := 0;
      while true
        invariant Paging(start, seen, whole, done, old(issued), old(env.conn.log), old(State()))
        decreases env.conn.idBound - start
      {
        var stop;
        r, stop, start, seen, done := CopyPage(start, seen, whole, done, old(issued), old(env.conn.log), old(State()));
        if stop {
          return;
        }
      }
    }

    /** The page loop is about to copy the page after `start`, with `seen`
        replies to the `max(id)` query read: since the loop began, with the
        engine in `st0`, it issued `done` and the rest of the loop is what it
        still does. */
    ghost predicate Paging(start: int, seen: nat, whole: Paged, done: seq<Event>, issued0: seq<Event>, log0: seq<Event>, st0: R.St)
      reads this, env.conn
    {
      env.conn.Sane() && 0 <= start <= env.conn.maxIdAt(seen) && (env.dry ==> start == 0) &&
      issued == issued0 + done && env.conn.log == log0 + Sent(env.dry, done) &&
      env.conn.maxIdReads == seen && State() == st0.(maxIds := seen) &&
      Resumes(whole, done, PagedLoop(env.conn, env.dry, R.PageFn(env), R.MaxIdQuery(env), seen, start))
    }

    /** The page loop has ended: it issued `done` and ended with `r`. */
    ghost predicate PagingDone(whole: Paged, done: seq<Event>, r: Outcome<Error>, issued0: seq<Event>, log0: seq<Event>, st0: R.St)
      reads this, env.conn
    {
      issued == issued0 + done && env.conn.log == log0 + Sent(env.dry, done) &&
      State() == st0.(maxIds := env.conn.maxIdReads) &&
      whole == Paged(done, env.conn.maxIdReads, r)
    }

    /** One round of that loop: the page after `start`, then, outside a dry run,
        the query for the copy's largest id. It says whether the loop stops
        there and, when it does not, where the next page starts. */
    method CopyPage(start: int, ghost seen: nat, ghost whole: Paged, ghost done: seq<Event>,
                    ghost issued0: seq<Event>, ghost log0: seq<Event>, ghost st0: R.St)
        returns (r: Outcome<Error>, stop: bool, next: int, ghost seen': nat, ghost done': seq<Event>)
      requires Paging(start, seen, whole, done, issued0, log0, st0)
      modifies this`issued, env.conn`log, env.conn`maxIdReads
      ensures stop ==> PagingDone(whole, done', r, issued0, log0, st0)
      ensures !stop ==> start < next && Paging(next, seen', whole, done', issued0, log0, st0)
    {
      LoopStep(env.conn, env.dry, R.PageFn(env), R.MaxIdQuery(env), seen, start, done, whole);
      var copy := R.PagedCopyQuery(env, start);
      assert copy == R.PageFn(env)(start);
      r := Execute(copy);
      Chain(env.dry, issued0, log0, done, [Exec(copy)]);
      done' := done + [Exec(copy)];
      if r.Fail? || env.dry {
        return r, true, start, seen, done';
      }
      r, stop, next, seen', done' := ReadMaxId(start, seen, whole, done', issued0, log0, st0);
    }

    /** The page after `start` has been copied, outside a dry run, and `done`
        ends with it: what the loop does next is to read the copy's largest id. */
    ghost predicate Copied(start: int, seen: nat, whole: Paged, done: seq<Event>, issued0: seq<Event>, log0: seq<Event>, st0: R.St)
      reads this, env.conn
    {
      var conn, mq := env.conn, R.MaxIdQuery(env);
      !env.dry && conn.Sane() && 0 <= start <= conn.maxIdAt(seen) &&
      issued == issued0 + done && conn.log == log0 + Sent(env.dry, done) &&
      conn.maxIdReads == seen && State() == st0.(maxIds := seen) &&
      (mq in conn.rejects ==> whole == Paged(done + [Query(mq)], seen, Fail(ExecutionFailed(mq)))) &&
      (mq !in conn.rejects && conn.maxIdAt(seen) == start ==> whole == Paged(done + [Query(mq)], seen + 1, Pass)) &&
      (mq !in conn.rejects && conn.maxIdAt(seen) != start ==>
        start < conn.maxIdAt(seen) <= conn.maxIdAt(seen + 1) &&
        Resumes(whole, done + [Query(mq)], PagedLoop(conn, false, R.PageFn(env), mq, seen + 1, conn.maxIdAt(seen))))
    }

    /** The second half of a round: the query for the copy's largest id. */
    method ReadMaxId(start: int, ghost seen: nat, ghost whole: Paged, ghost done: seq<Event>,
                     ghost issued0: seq<Event>, ghost log0: seq<Event>, ghost st0: R.St)
        returns (r: Outcome<Error>, stop: bool, next: int, ghost seen': nat, ghost done': seq<Event>)
      requires Copied(start, seen, whole, done, issued0, log0, st0)
      modifies this`issued, env.conn`log, env.conn`maxIdReads
      ensures stop ==> PagingDone(whole, done', r, issued0, log0, st0)
      ensures !stop ==> start < next && Paging(next, seen', whole, done', issued0, log0, st0)
    {
      var reply := SelectMaxId();
      Chain(env.dry, issued0, log0, done, [Query(R.MaxIdQuery(env))]);
      done', seen' := done + [Query(R.MaxIdQuery(env))], seen + 1;
      if reply.Err? {
        return Fail(reply.error), true, start, seen', done';
      }
      next := reply.value;
      r, stop := Pass, start == next;
    }

    /** `select_all(updated_ids_query(epoch)).map { |r| r['id'].to_i }`: no ids
        under a dry run, where nothing is sent. */
    method SelectIds(sql: string) returns (r: Result<seq<int>, Error>)
      modifies this`issued, env.conn`log, env.conn`idsReads
      ensures var st := old(State());
        if env.dry then Did([Query(sql)], st) && r == Ok([])
        else if sql in env.conn.rejects then Did([Query(sql)], st) && r == Err(ExecutionFailed(sql))
        else Did([Query(sql)], st.(idLists := st.idLists + 1)) && r == Ok(env.conn.idsAt(st.idLists))
    {
      issued := issued + [Query(sql)];
      if env.dry {
        return Ok([]);
      }
      r := env.conn.SelectIds(sql);
      assert Sent(false, [Query(sql)]) == [Query(sql)];
    }

    /** `paged_delta_copy`: flop the epoch, select the ids changed since the one
        it yields, and copy them in groups of `DELTA_PAGE_SIZE`. */
    method PagedDeltaCopy() returns (r: Outcome<Error>)
      modifies this`issued, this`nextEpoch, env.conn`log, env.conn`epochReads, env.conn`idsReads
      ensures var x := R.PagedDeltaCopy(env, old(State())); Did(x.events, x.st) && r == x.out
    {
      var f := FlopEpoch();
      if f.Err? {
        return Fail(f.error);
      }
      ghost var fx := R.FlopEpoch(env, old(State()));
      ghost var issued1, log1 := issued, env.conn.log;
      var q := R.UpdatedIdsQuery(env, f.value);
      var ids := SelectIds(q);
      Chain(env.dry, old(issued), old(env.conn.log), fx.events, [Query(q)]);
      if ids.Err? {
        return Fail(ids.error);
      }
      ghost var issued2, log2 := issued, env.conn.log;
      var stmts := R.DeltaStatements(env, ids.value);
      r := ExecuteAll(stmts);
      ghost var x := ExecAll(env.dry, env.conn.rejects, stmts);
      Chain(env.dry, old(issued), old(env.conn.log), fx.events + [Query(q)], x.events);
    }

    /** One timed pass of `multi_pass_delta_copy`: a delta copy between two
        `Time.now` readings, and the seconds between them when it succeeds. */
    method TimedPass() returns (r: Outcome<Error>, elapsed: int)
      modifies this`issued, this`nextEpoch, this`clock, env.conn`log, env.conn`epochReads, env.conn`idsReads
      ensures var d := R.PagedDeltaCopy(env, old(State()));
        r == d.out &&
        (d.out.Fail? ==> Did(d.events, d.st)) &&
        (d.out.Pass? ==> Did(d.events, d.st.(clock := d.st.clock + 1)) && elapsed == env.elapsedAt(d.st.clock))
    {
      r := PagedDeltaCopy();
      elapsed := 0;
      if r.Pass? {
        elapsed := env.elapsedAt(clock);
        clock := clock + 1;
      }
    }

    /** `multi_pass_delta_copy`: delta passes, each timed, until one takes at most
        `DELTA_CONTINUE_THRESHOLD` seconds or `MAX_DELTA_PASSES` have run. */
    method MultiPassDeltaCopy() returns (r: Outcome<Error>)
      modifies this`issued, this`nextEpoch, this`clock, env.conn`log, env.conn`epochReads, env.conn`idsReads
      ensures var x := R.MultiPass(env, old(State()), 1); Did(x.events, x.st) && r == x.out
    {
      ghost var st := State();
      ghost var whole := R.MultiPass(env, st, 1);
      ghost var done: seq<Event> := [];
      Begins(whole);
      var pass := 1;
      while true
        invariant Passing(pass, st, whole, done, old(issued), old(env.conn.log))
        decreases MaxDeltaPasses - pass
      {
        var stop;
        r, stop, done, st, pass := Round(pass, st, whole, done, old(issued), old(env.conn.log));
        if stop {
          return;
        }
      }
    }

    /** The delta passes are about to make pass number `pass` in state `st`:
        since they began they issued `done`, and what they still do is the rest
        of `whole`. */
    ghost predicate Passing(pass: nat, st: R.St, whole: R.Run, done: seq<Event>, issued0: seq<Event>, log0: seq<Event>)
      reads this, env.conn
    {
      1 <= pass <= MaxDeltaPasses && State() == st &&
      issued == issued0 + done && env.conn.log == log0 + Sent(env.dry, done) &&
      Continues(whole, done, R.MultiPass(env, st, pass))
    }

    /** The delta passes have ended in state `st`: they issued `done` and ended with `r`. */
    ghost predicate PassingDone(st: R.St, whole: R.Run, done: seq<Event>, r: Outcome<Error>, issued0: seq<Event>, log0: seq<Event>)
      reads this, env.conn
    {
      State() == st && issued == issued0 + done && env.conn.log == log0 + Sent(env.dry, done) &&
      whole == R.Run(done, st, r)
    }

    /** The body of the loop of `multi_pass_delta_copy`, pass number `pass`: a
        timed delta copy, then the decision to stop. */
    method Round(pass: nat, ghost st: R.St, ghost whole: R.Run, ghost done: seq<Event>, ghost issued0: seq<Event>, ghost log0: seq<Event>)
        returns (r: Outcome<Error>, stop: bool, ghost done': seq<Event>, ghost st': R.St, following: nat)
      requires Passing(pass, st, whole, done, issued0, log0)
      modifies this`issued, this`nextEpoch, this`clock, env.conn`log, env.conn`epochReads, env.conn`idsReads
      ensures stop ==> PassingDone(st', whole, done', r, issued0, log0)
      ensures following == pass + 1
      ensures !stop ==> Passing(pass + 1, st', whole, done', issued0, log0)
    {
      ghost var events, after, out, next := PassStep(env, st, pass, done, whole);
      var elapsed;
      r, elapsed := TimedPass();
      Chain(env.dry, issued0, log0, done, events);
      done' := done + events;
      st', following := if r.Fail? then after else next, pass + 1;
      stop := r.Fail? || elapsed <= DeltaContinueThreshold || pass == MaxDeltaPasses;
    }

    /** `full_delta_copy`: the rows changed since the stored epoch, copied again. */
    method FullDeltaCopy() returns (r: Outcome<Error>)
      modifies this`issued, env.conn`log
      ensures var x := R.FullDeltaCopy(env, old(State())); Did(x.events, old(State())) && r == x.out
    {
      var epoch := LastEpoch();
      r := Execute(R.FullDeltaQuery(env, epoch));
    }

    /** `create_new_table`: the empty copy of the table, then the strategy's
        schema changes, which it applies only outside a dry run. The changes are
        recorded among the issued events as they reach the connection. */
    method CreateNewTable() returns (r: Outcome<Error>)
      requires Valid()
      modifies this`issued, env.conn`log
      ensures var x := ExecAll(env.dry, env.conn.rejects, R.CreateStatements(env));
        Did(x.events, old(State())) && r == x.out
    {
      var create := R.CreateStatement(env);
      r := Execute(create);
      if r.Fail? {
        StopsAt(env.dry, env.conn.rejects, R.CreateStatements(env), 0);
        return;
      }
      if !env.dry {
        ghost var issued1, log1 := issued, env.conn.log;
        r := strategy.ApplyChanges();
        ghost var applied := ExecEvents(Attempted(env.changes, env.conn.rejects));
        issued := issued + applied;
        assert Sent(false, applied) == applied;
        Chain(false, old(issued), old(env.conn.log), [Exec(create)], applied);
        AcceptedFirst(env.conn.rejects, create, env.changes);
      } else {
        assert R.CreateStatements(env) == [create];
      }
    }

    /** The `begin` part of `in_table_lock(t1, t2) { body }`: autocommit off and
        both tables write-locked, the block, then COMMIT and UNLOCK. */
    method LockedBlock(t1: string, t2: string, body: seq<string>) returns (r: Outcome<Error>)
      modifies this`issued, env.conn`log
      ensures var x := Locked(env.dry, env.conn.rejects, t1, t2, ExecAll(env.dry, env.conn.rejects, body));
        Did(x.events, old(State())) && r == x.out
    {
      ghost var dry, rejects := env.dry, env.conn.rejects;
      ghost var pre, b := ExecAll(dry, rejects, LockPrelude(t1, t2)), ExecAll(dry, rejects, body);
      r := ExecuteAll(LockPrelude(t1, t2));
      if r.Fail? {
        return;
      }
      r := ExecuteAll(body);
      Chain(dry, old(issued), old(env.conn.log), pre.events, b.events);
      if r.Fail? {
        return;
      }
      ghost var post := ExecAll(dry, rejects, LockPostlude);
      r := ExecuteAll(LockPostlude);
      Chain(dry, old(issued), old(env.conn.log), pre.events + b.events, post.events);
    }

    /** `in_table_lock(t1, t2) { body }`: the locked block, then autocommit back on
        whatever happened; a failure of that replaces the error in flight. */
    method InTableLock(t1: string, t2: string, body: seq<string>) returns (r: Outcome<Error>)
      modifies this`issued, env.conn`log
      ensures var x := LockedEnsure(env.dry, env.conn.rejects, t1, t2, ExecAll(env.dry, env.conn.rejects, body));
        Did(x.events, old(State())) && r == x.out
    {
      ghost var inner := Locked(env.dry, env.conn.rejects, t1, t2, ExecAll(env.dry, env.conn.rejects, body));
      ghost var restore := ExecAll(env.dry, env.conn.rejects, [RestoreAutocommit]);
      r := LockedBlock(t1, t2, body);
      var restored := Execute(RestoreAutocommit);
      Chain(env.dry, old(issued), old(env.conn.log), inner.events, restore.events);
      if restored.Fail? {
        r := restored;
      }
    }

    /** `up!` up to the row probe: `create_new_table` when `create_temp_table`
        is set, then, outside a dry run, the query for a first row. */
    method Prepare() returns (r: Outcome<Error>)
      requires Valid()
      modifies this`issued, env.conn`log
      ensures var x := R.Prepare(env); Did(x.events, old(State())) && r == x.out
    {
      ghost var c := if env.createTemp then ExecAll(env.dry, env.conn.rejects, R.CreateStatements(env)) else Steps([], Pass);
      r := Pass;
      if env.createTemp {
        r := CreateNewTable();
      }
      if r.Fail? || env.dry {
        return;
      }
      var q := R.ProbeQuery(env);
      r := Execute(q);
      Chain(env.dry, old(issued), old(env.conn.log), c.events, [Exec(q)]);
      RunOne(env.conn.rejects, q);
    }

    /** `self.paged_copy if create_temp_table?`. */
    method PagedCopyIfTemp() returns (r: Outcome<Error>)
      requires env.conn.Sane()
      modifies this`issued, this`nextEpoch, env.conn`log, env.conn`epochReads, env.conn`maxIdReads
      ensures var p := if env.createTemp then R.PagedCopy(env, old(State())) else R.Run([], old(State()), Pass);
        Did(p.events, p.st) && r == p.out
    {
      r := Pass;
      if env.createTemp {
        r := PagedCopy();
      }
    }

    /** `self.multi_pass_delta_copy if multi_pass?`. */
    method MultiPassIfAsked() returns (r: Outcome<Error>)
      modifies this`issued, this`nextEpoch, this`clock, env.conn`log, env.conn`epochReads, env.conn`idsReads
      ensures var m := if env.multiPass then R.MultiPass(env, old(State()), 1) else R.Run([], old(State()), Pass);
        Did(m.events, m.st) && r == m.out
    {
      r := Pass;
      if env.multiPass {
        r := MultiPassDeltaCopy();
      }
    }

    /** The copying part of `up!`: `paged_copy` when `create_temp_table` is set,
        then `multi_pass_delta_copy` when `multi_pass` is. */
    method Copies() returns (r: Outcome<Error>)
      requires env.conn.Sane()
      modifies this`issued, this`nextEpoch, this`clock, env.conn`log, env.conn`epochReads, env.conn`maxIdReads, env.conn`idsReads
      ensures var x := R.Copies(env, old(State())); Did(x.events, x.st) && r == x.out
    {
      ghost var p := if env.createTemp then R.PagedCopy(env, State()) else R.Run([], State(), Pass);
      r := PagedCopyIfTemp();
      if r.Fail? {
        return;
      }
      ghost var m := if env.multiPass then R.MultiPass(env, p.st, 1) else R.Run([], p.st, Pass);
      r := MultiPassIfAsked();
      Chain(env.dry, old(issued), old(env.conn.log), p.events, m.events);
    }

    /** The settle pause of `up!`, taken when either option is set. */
    method Settle()
      modifies this`issued
      ensures Did(if env.createTemp || env.multiPass then [Pause] else [], old(State()))
    {
      if env.createTemp || env.multiPass {
        issued := issued + [Pause];
        assert Sent(env.dry, [Pause]) == [];
      }
    }

    /** The rest of `up!` for a table with rows: the copying, the settle pause
        when either option is set, then the final delta and both renames inside
        `in_table_lock` on the table and its copy. */
    method CopyAndSwap() returns (r: Outcome<Error>)
      requires env.conn.Sane()
      modifies this`issued, this`nextEpoch, this`clock, env.conn`log, env.conn`epochReads, env.conn`maxIdReads, env.conn`idsReads
      ensures var x := R.CopyAndSwap(env, old(State())); Did(x.events, x.st) && r == x.out
    {
      ghost var c := R.Copies(env, State());
      r := Copies();
      if r.Fail? {
        return;
      }
      ghost var pause: seq<Event> := if env.createTemp || env.multiPass then [Pause] else [];
      Settle();
      Chain(env.dry, old(issued), old(env.conn.log), c.events, pause);
      var body := R.SwapStatements(env, LastEpoch());
      ghost var lock := LockedEnsure(env.dry, env.conn.rejects, env.table, env.newTable, ExecAll(env.dry, env.conn.rejects, body));
      r := InTableLock(env.table, env.newTable, body);
      Chain(env.dry, old(issued), old(env.conn.log), c.events + pause, lock.events);
    }

    /** The rest of `up!` for an empty table: the whole copy and both renames
        inside `in_table_lock` on the table and its copy. */
    method EmptySwap() returns (r: Outcome<Error>)
      modifies this`issued, env.conn`log
      ensures var x := R.EmptySwap(env); Did(x.events, old(State())) && r == x.out
    {
      r := InTableLock(env.table, env.newTable, R.EmptySwapStatements(env));
    }

    /** `up!`. */
    method Up() returns (r: Outcome<Error>)
      requires Valid() && env.conn.Sane()
      modifies this`issued, this`nextEpoch, this`clock, env.conn`log, env.conn`epochReads, env.conn`maxIdReads, env.conn`idsReads
      ensures var x := R.Up(env, old(State())); Did(x.events, x.st) && r == x.out
    {
      r := Prepare();
      if r.Fail? {
        return;
      }
      ghost var pre := R.Prepare(env);
      if env.dry || env.conn.hasRows {
        r := CopyAndSwap();
        Chain(env.dry, old(issued), old(env.conn.log), pre.events, R.CopyAndSwap(env, old(State())).events);
      } else {
        r := EmptySwap();
        Chain(env.dry, old(issued), old(env.conn.log), pre.events, R.EmptySwap(env).events);
      }
    }

    /** `down!`: under a lock on the table and the old table, the table goes back
        to the copy's name, the old table to the table's name, and the copy is dropped. */
    method Down() returns (r: Outcome<Error>)
      modifies this`issued, env.conn`log
      ensures var x := R.Down(env); Did(x.events, old(State())) && r == x.out
    {
      r := InTableLock(env.table, env.oldTable, R.DownStatements(env));
    }

    /** `last_epoch`. */
    function LastEpoch(): Option<Epoch>
      reads this
    {
      nextEpoch
    }
  }

  lemma PrefixStep<T>(s: seq<T>, i: nat)
    requires i < |s|
    ensures s[..i + 1] == s[..i] + [s[i]]
  {
  }

  /** One more statement extends what is issued and what is sent. */
  lemma ExecStep(dry: bool, issued0: seq<Event>, log0: seq<Event>, done: seq<string>, sql: string)
    ensures issued0 + ExecEvents(done) + [Exec(sql)] == issued0 + ExecEvents(done + [sql])
    ensures log0 + Sent(dry, ExecEvents(done)) + Sent(dry, [Exec(sql)]) == log0 + Sent(dry, ExecEvents(done + [sql]))
  {
    ExecEventsAppend(done, [sql]);
    var e := ExecEvents(done);
    Extend(issued0, e, [Exec(sql)]);
    SentAppend(dry, e, [Exec(sql)]);
    Extend(log0, Sent(dry, e), Sent(dry, [Exec(sql)]));
  }

  /** The page loop so far issued `done`, and what it does from here on is `rest`. */
  predicate Resumes(whole: Paged, done: seq<Event>, rest: Paged) {
    whole == Paged(done + rest.events, rest.seen, rest.out)
  }

  /** Before the first round nothing has been issued. */
  lemma Starts(whole: Paged)
    ensures Resumes(whole, [], whole)
  {
    assert [] + whole.events == whole.events;
  }

  /** One round of the page loop: how it ends, or where it resumes. */
  lemma LoopStep(conn: Connection, dry: bool, page: int -> string, mq: string, seen: nat, start: int,
                 done: seq<Event>, whole: Paged)
    requires conn.Sane() && 0 <= start <= conn.maxIdAt(seen) && (dry ==> start == 0)
    requires Resumes(whole, done, PagedLoop(conn, dry, page, mq, seen, start))
    ensures !dry && page(start) in conn.rejects ==>
      whole == Paged(done + [Exec(page(start))], seen, Fail(ExecutionFailed(page(start))))
    ensures dry ==> whole == Paged(done + [Exec(page(start))], seen, Pass)
    ensures !dry && page(start) !in conn.rejects && mq in conn.rejects ==>
      whole == Paged(done + [Exec(page(start))] + [Query(mq)], seen, Fail(ExecutionFailed(mq)))
    ensures !dry && page(start) !in conn.rejects && mq !in conn.rejects && conn.maxIdAt(seen) == start ==>
      whole == Paged(done + [Exec(page(start))] + [Query(mq)], seen + 1, Pass)
    ensures !dry && page(start) !in conn.rejects && mq !in conn.rejects && conn.maxIdAt(seen) != start ==>
      start < conn.maxIdAt(seen) <= conn.maxIdAt(seen + 1) &&
      Resumes(whole, done + [Exec(page(start))] + [Query(mq)], PagedLoop(conn, dry, page, mq, seen + 1, conn.maxIdAt(seen)))
  {
    var ev := [Exec(page(start))] + [Query(mq)];
    Extend(done, [Exec(page(start))], [Query(mq)]);
    if !dry && page(start) !in conn.rejects && mq !in conn.rejects && conn.maxIdAt(seen) != start {
      var rest := PagedLoop(conn, dry, page, mq, seen + 1, conn.maxIdAt(seen));
      assert PagedLoop(conn, dry, page, mq, seen, start).events == ev + rest.events;
      Extend(done, ev, rest.events);
    }
  }

  /** The delta passes so far issued `done`, and what they do from here on is `rest`. */
  predicate Continues(whole: R.Run, done: seq<Event>, rest: R.Run) {
    whole == R.Run(done + rest.events, rest.st, rest.out)
  }

  /** Before the first pass nothing has been issued. */
  lemma Begins(whole: R.Run)
    ensures Continues(whole, [], whole)
  {
    assert [] + whole.events == whole.events;
  }

  /** One delta pass: what it issues and leaves, and how the passes end or
      where they resume. */
  lemma PassStep(e: R.Env, st: R.St, pass: nat, done: seq<Event>, whole: R.Run)
      returns (events: seq<Event>, after: R.St, out: Outcome<Error>, next: R.St)
    requires 1 <= pass <= MaxDeltaPasses
    requires Continues(whole, done, R.MultiPass(e, st, pass))
    ensures R.PagedDeltaCopy(e, st) == R.Run(events, after, out)
    ensures next == after.(clock := after.clock + 1)
    ensures out.Fail? ==> whole == R.Run(done + events, after, out)
    ensures out.Pass? && (e.elapsedAt(after.clock) <= DeltaContinueThreshold || pass == MaxDeltaPasses) ==>
      whole == R.Run(done + events, next, Pass)
    ensures out.Pass? && !(e.elapsedAt(after.clock) <= DeltaContinueThreshold || pass == MaxDeltaPasses) ==>
      Continues(whole, done + events, R.MultiPass(e, next, pass + 1))
  {
    var d := R.PagedDeltaCopy(e, st);
    events, after, out := d.events, d.st, d.out;
    next := d.st.(clock := st.clock + 1);
    R.MultiPassStep(e, st, pass);
    if d.out.Pass? && !(e.elapsedAt(st.clock) <= DeltaContinueThreshold || pass == MaxDeltaPasses) {
      ContinuesAfter(whole, done, d, R.MultiPass(e, st, pass), R.MultiPass(e, next, pass + 1));
    }
  }

  /** A run that goes on after pass `d` continues, past that pass, with the
      passes that follow. */
  lemma ContinuesAfter(whole: R.Run, done: seq<Event>, d: R.Run, m: R.Run, rest: R.Run)
    requires Continues(whole, done, m)
    requires m == R.Run(d.events + rest.events, rest.st, rest.out)
    ensures Continues(whole, done + d.events, rest)
  {
    Extend(done, d.events, rest.events);
  }

  /** Two stretches of events one after the other, on top of what came before. */
  lemma Chain(dry: bool, issued0: seq<Event>, log0: seq<Event>, a: seq<Event>, b: seq<Event>)
    ensures issued0 + a + b == issued0 + (a + b)
    ensures log0 + Sent(dry, a) + Sent(dry, b) == log0 + Sent(dry, a + b)
  {
    Extend(issued0, a, b);
    SentAppend(dry, a, b);
    Extend(log0, Sent(dry, a), Sent(dry, b));
  }

  lemma Extend<T>(a: seq<T>, b: seq<T>, c: seq<T>)
    ensures a + b + c == a + (b + c)
  {
  }

  /** A run that reaches statement `i` over accepted ones and has it rejected
      issues up to it and fails there. */
  lemma StopsAt(dry: bool, rejects: set<string>, stmts: seq<string>, i: nat)
    requires i < |stmts| && !dry && stmts[i] in rejects
    requires forall j :: 0 <= j < i ==> dry || stmts[j] !in rejects
    ensures ExecAll(dry, rejects, stmts) == Steps(ExecEvents(stmts[..i + 1]), Fail(ExecutionFailed(stmts[i])))
  {
    AfterClean(stmts, i, rejects);
    assert Attempted(stmts[i..], rejects) == [stmts[i]];
    assert stmts[..i] + [stmts[i]] == stmts[..i + 1];
  }

  /** Past a first statement that is accepted, a run goes on with the others. */
  lemma AcceptedFirst(rejects: set<string>, first: string, rest: seq<string>)
    requires first !in rejects
    ensures ExecAll(false, rejects, [first] + rest) ==
      Steps([Exec(first)] + ExecEvents(Attempted(rest, rejects)), RunOutcome(rest, rejects))
  {
    AfterClean([first] + rest, 1, rejects);
    assert ([first] + rest)[1..] == rest;
    ExecEventsAppend([first], Attempted(rest, rejects));
  }

  /** A single statement is issued and fails exactly when it is rejected. */
  lemma RunOne(rejects: set<string>, sql: string)
    ensures ExecAll(false, rejects, [sql]) ==
      Steps([Exec(sql)], if sql in rejects then Fail(ExecutionFailed(sql)) else Pass)
  {
    if sql in rejects {
      StopsAt(false, rejects, [sql], 0);
      assert [sql][..1] == [sql];
    } else {
      RunsThrough(false, rejects, [sql]);
    }
  }

  /** A run over accepted statements issues them all and passes. */
  lemma RunsThrough(dry: bool, rejects: set<string>, stmts: seq<string>)
    requires forall j :: 0 <= j < |stmts| ==> dry || stmts[j] !in rejects
    ensures ExecAll(dry, rejects, stmts) == Steps(ExecEvents(stmts), Pass)
  {
    if !dry {
      AfterClean(stmts, |stmts|, rejects);
      assert stmts[..|stmts|] == stmts;
    }
  }
}
