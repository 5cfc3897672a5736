/**
 * What both copy engines share: their tuning constants, the dry-run gate in
 * front of `execute`, the grouping of changed ids, the write-lock statements
 * and the forward-only paged copy loop. A phase is described by the events it
 * issues (every `execute` and `select_all` call, in order, whether or not it
 * reaches the connection) and the way it ends.
 */
module Plan {
  import opened Wrappers
  import opened Text
  import opened Db

  const MaxDeltaPasses := 5
  const DeltaContinueThreshold := 5
  const PageSize := 50000
  const DeltaPageSize := 1000
  const PauseLength := 5

  /** The events a phase issues and how it ends. */
  datatype Steps = Steps(events: seq<Event>, out: Outcome<Error>)

  /** `execute(sql)` for each statement in turn. Under a dry run every call is
      made but none reaches the connection, so none fails; otherwise the calls
      stop at the first statement the database rejects. */
  function ExecAll(dry: bool, rejects: set<string>, stmts: seq<string>): (r: Steps)
    ensures NoPause(r.events)
  {
    if dry then Steps(ExecEvents(stmts), Pass)
    else Steps(ExecEvents(Attempted(stmts, rejects)), RunOutcome(stmts, rejects))
  }

  /** All the statements are issued exactly when none of them fails; a failure
      names the last statement issued, which is the first one rejected. */
  lemma ExecAllEnds(dry: bool, rejects: set<string>, stmts: seq<string>)
    ensures ExecAll(dry, rejects, stmts).out.Pass? ==> ExecAll(dry, rejects, stmts).events == ExecEvents(stmts)
    ensures ExecAll(dry, rejects, stmts).out.Pass? <==> dry || forall i :: 0 <= i < |stmts| ==> stmts[i] !in rejects
    ensures ExecAll(dry, rejects, stmts).out.Fail? ==>
      var r := ExecAll(dry, rejects, stmts);
      !dry && r.events != [] && r.out == Fail(ExecutionFailed(r.events[|r.events| - 1].sql)) &&
      r.events[|r.events| - 1].sql in rejects
  {
    AttemptedStopsAtFirstRejected(stmts, rejects);
  }

  /** The concatenation of a list of id groups. */
  function Flatten(groups: seq<seq<int>>): (r: seq<int>)
    ensures forall x :: x in r <==> exists i :: 0 <= i < |groups| && x in groups[i]
    decreases |groups|
  {
    if groups == [] then [] else groups[0] + Flatten(groups[1..])
  }

  /** `ids.in_groups_of(n, false)`: consecutive slices of `n` ids, the last one
      shorter when `n` does not divide the count, without padding. */
  function InGroupsOf(ids: seq<int>, n: nat): (r: seq<seq<int>>)
    requires n > 0
    ensures forall i :: 0 <= i < |r| ==> 0 < |r[i]| <= n
    ensures forall i :: 0 <= i < |r| - 1 ==> |r[i]| == n
    ensures Flatten(r) == ids
    decreases |ids|
  {
    if ids == [] then []
    else if |ids| <= n then
      assert Flatten([ids]) == ids + Flatten([]);
      [ids]
    else
      var rest := InGroupsOf(ids[n..], n);
      assert Flatten([ids[..n]] + rest) == ids[..n] + Flatten(rest) by {
        assert ([ids[..n]] + rest)[1..] == rest;
      }
      assert ids == ids[..n] + ids[n..];
      [ids[..n]] + rest
  }

  /** 1500 changed ids give two statements: a full page of 1000 and the 500 left. */
  lemma GroupsExample(ids: seq<int>)
    requires |ids| == 1500
    ensures |InGroupsOf(ids, DeltaPageSize)| == 2
    ensures InGroupsOf(ids, DeltaPageSize)[0] == ids[..1000]
    ensures InGroupsOf(ids, DeltaPageSize)[1] == ids[1000..]
  {
    var rest := InGroupsOf(ids[1000..], DeltaPageSize);
    assert rest == [ids[1000..]];
  }

  /** `ids.join(', ')`, each id rendered in decimal. */
  function IdList(ids: seq<int>): string {
    Join(seq(|ids|, i requires 0 <= i < |ids| => IntToString(ids[i])), ", ")
  }

  /** `LOCK TABLES` over the tables, each write-locked: `tables.map { "`t` WRITE" }.join(', ')`. */
  function LockStatement(t1: string, t2: string): string {
    "LOCK TABLES " + Join([Backtick(t1) + " WRITE", Backtick(t2) + " WRITE"], ", ")
  }

  lemma LockStatementText(t1: string, t2: string)
    ensures LockStatement(t1, t2) == "LOCK TABLES `" + t1 + "` WRITE, `" + t2 + "` WRITE"
  {
    assert Join([Backtick(t2) + " WRITE"], ", ") == Backtick(t2) + " WRITE";
  }

  /** `ALTER TABLE `from` RENAME TO `to``. */
  function RenameStatement(from: string, to: string): string {
    "ALTER TABLE " + Backtick(from) + " RENAME TO " + Backtick(to)
  }

  /** What `in_table_lock` runs before its block. */
  function LockPrelude(t1: string, t2: string): (r: seq<string>)
    ensures r == ["SET autocommit=0", "LOCK TABLES `" + t1 + "` WRITE, `" + t2 + "` WRITE"]
  {
    LockStatementText(t1, t2);
    ["SET autocommit=0", LockStatement(t1, t2)]
  }

  /** What it runs after a block that did not fail. */
  const LockPostlude: seq<string> := ["COMMIT", "UNLOCK TABLES"]

  const RestoreAutocommit := "SET autocommit=1"

  /** The `begin` part of `in_table_lock`: the prelude, the block, then COMMIT
      and UNLOCK, each only when everything before it succeeded. */
  function Locked(dry: bool, rejects: set<string>, t1: string, t2: string, body: Steps): (r: Steps)
    ensures r.out.Pass? <==>
      ExecAll(dry, rejects, LockPrelude(t1, t2)).out.Pass? && body.out.Pass? && ExecAll(dry, rejects, LockPostlude).out.Pass?
    ensures r.out.Pass? ==> r.events == ExecEvents(LockPrelude(t1, t2)) + body.events + ExecEvents(LockPostlude)
    ensures r.out.Fail? && ExecAll(dry, rejects, LockPrelude(t1, t2)).out.Pass? && body.out.Pass? ==>
      r.out == ExecAll(dry, rejects, LockPostlude).out
  {
    ExecAllEnds(dry, rejects, LockPrelude(t1, t2));
    ExecAllEnds(dry, rejects, LockPostlude);
    var pre := ExecAll(dry, rejects, LockPrelude(t1, t2));
    if pre.out.Fail? then pre
    else if body.out.Fail? then Steps(pre.events + body.events, body.out)
    else
      var post := ExecAll(dry, rejects, LockPostlude);
      Steps(pre.events + body.events + post.events, post.out)
  }

  /** `in_table_lock(t1, t2) { body }` of the copy engine. The autocommit restore
      sits in an `ensure`: it is issued on every path, and when it fails itself
      its error replaces the one in flight. COMMIT and UNLOCK are only reached
      when the prelude and the body both succeed. */
  function LockedEnsure(dry: bool, rejects: set<string>, t1: string, t2: string, body: Steps): (r: Steps)
    ensures NoPause(body.events) ==> NoPause(r.events)
  {
    var inner := Locked(dry, rejects, t1, t2, body);
    var restore := ExecAll(dry, rejects, [RestoreAutocommit]);
    Steps(inner.events + restore.events, if restore.out.Fail? then restore.out else inner.out)
  }

  /** A block that fails after the prelude skips COMMIT and UNLOCK: the
      restore comes straight after it. */
  lemma LockedEnsureFailingBody(dry: bool, rejects: set<string>, t1: string, t2: string, body: Steps)
    ensures var r := LockedEnsure(dry, rejects, t1, t2, body);
      ExecAll(dry, rejects, LockPrelude(t1, t2)).out.Pass? && body.out.Fail? ==>
        r.events == ExecEvents(LockPrelude(t1, t2)) + body.events + [Exec(RestoreAutocommit)]
  {
    ExecAllEnds(dry, rejects, LockPrelude(t1, t2));
    ExecAllEnds(dry, rejects, [RestoreAutocommit]);
  }

  /** Autocommit is restored last on every path. */
  lemma LockedEnsureRestoresLast(dry: bool, rejects: set<string>, t1: string, t2: string, body: Steps)
    ensures var r := LockedEnsure(dry, rejects, t1, t2, body);
      r.events != [] && r.events[|r.events| - 1] == Exec(RestoreAutocommit)
  {
    var restore := ExecAll(dry, rejects, [RestoreAutocommit]);
    assert restore.events == [Exec(RestoreAutocommit)] by {
      assert Attempted([RestoreAutocommit], rejects) == [RestoreAutocommit];
    }
  }

  /** On success the block sits between the lock and the COMMIT. */
  lemma LockedEnsureSuccess(dry: bool, rejects: set<string>, t1: string, t2: string, body: Steps)
    ensures var r := LockedEnsure(dry, rejects, t1, t2, body);
      r.out.Pass? ==>
        body.out.Pass? &&
        r.events == ExecEvents(LockPrelude(t1, t2)) + body.events + ExecEvents(LockPostlude + [RestoreAutocommit])
  {
    var r := LockedEnsure(dry, rejects, t1, t2, body);
    if r.out.Pass? {
      ExecAllEnds(dry, rejects, LockPrelude(t1, t2));
      ExecAllEnds(dry, rejects, LockPostlude);
      ExecAllEnds(dry, rejects, [RestoreAutocommit]);
      ExecEventsAppend(LockPostlude, [RestoreAutocommit]);
    }
  }

  /** A successful locked run of a statement list issues the prelude, the
      statements, COMMIT, UNLOCK and the restore, in that order, and nothing else. */
  lemma LockedRunSuccess(dry: bool, rejects: set<string>, t1: string, t2: string, stmts: seq<string>)
    ensures var r := LockedEnsure(dry, rejects, t1, t2, ExecAll(dry, rejects, stmts));
      r.out.Pass? ==> r.events == ExecEvents(LockPrelude(t1, t2) + stmts + LockPostlude + [RestoreAutocommit])
  {
    var body := ExecAll(dry, rejects, stmts);
    var r := LockedEnsure(dry, rejects, t1, t2, body);
    if r.out.Pass? {
      LockedEnsureSuccess(dry, rejects, t1, t2, body);
      ExecAllEnds(dry, rejects, stmts);
      var pre := LockPrelude(t1, t2);
      ExecEventsAppend(pre, stmts);
      ExecEventsAppend(pre + stmts, LockPostlude + [RestoreAutocommit]);
      assert pre + stmts + LockPostlude + [RestoreAutocommit] == (pre + stmts) + (LockPostlude + [RestoreAutocommit]);
    }
  }

  /** How the paged copy loop ends: its events, how many `max(id)` replies have
      been read, and the outcome. */
  datatype Paged = Paged(events: seq<Event>, seen: nat, out: Outcome<Error>)

  /** The loop of `paged_copy` from `start`: copy the page after `start`, read
      the new `max(id)` of the copy (0 under a dry run, without a query) and stop
      once it equals `start`; otherwise go on from there. The loop ends because
      the replies never decrease and never pass `idBound`, so each further
      iteration starts strictly higher. */
  function PagedLoop(conn: Connection, dry: bool, page: int -> string, maxQuery: string, seen: nat, start: int): (r: Paged)
    requires conn.Sane() && 0 <= start <= conn.maxIdAt(seen) && (dry ==> start == 0)
    ensures seen <= r.seen
    ensures 0 < |r.events| <= 2 * (conn.idBound - start + 1)
    ensures r.events[0] == Exec(page(start))
    ensures NoPause(r.events)
    decreases conn.idBound - start
  {
    var copy := page(start);
    if !dry && copy in conn.rejects then Paged([Exec(copy)], seen, Fail(ExecutionFailed(copy)))
    else if dry then Paged([Exec(copy)], seen, Pass)
    else if maxQuery in conn.rejects then Paged([Exec(copy), Query(maxQuery)], seen, Fail(ExecutionFailed(maxQuery)))
    else
      var next := conn.maxIdAt(seen);
      if next == start then Paged([Exec(copy), Query(maxQuery)], seen + 1, Pass)
      else
        var rest := PagedLoop(conn, dry, page, maxQuery, seen + 1, next);
        Paged([Exec(copy), Query(maxQuery)] + rest.events, rest.seen, rest.out)
  }

  /** Under a dry run the loop issues exactly one page, the one after id 0. */
  lemma PagedDryRunOnePage(conn: Connection, page: int -> string, maxQuery: string, seen: nat)
    requires conn.Sane()
    ensures PagedLoop(conn, true, page, maxQuery, seen, 0) == Paged([Exec(page(0))], seen, Pass)
  {
  }

  /** A successful loop ends with a page statement followed by the `max(id)`
      query, and the page started at exactly the id that query then reported:
      the last page copied nothing new. */
  lemma {:induction false} PagedLastPageAddsNothing(conn: Connection, page: int -> string, maxQuery: string, seen: nat, start: int)
    requires conn.Sane() && 0 <= start <= conn.maxIdAt(seen)
    ensures var r := PagedLoop(conn, false, page, maxQuery, seen, start);
      r.out.Pass? ==>
        seen < r.seen && |r.events| >= 2 &&
        r.events[|r.events| - 2] == Exec(page(conn.maxIdAt(r.seen - 1))) &&
        r.events[|r.events| - 1] == Query(maxQuery)
    decreases conn.idBound - start
  {
    var copy := page(start);
    if copy !in conn.rejects && maxQuery !in conn.rejects {
      var next := conn.maxIdAt(seen);
      if next != start {
        PagedLastPageAddsNothing(conn, page, maxQuery, seen + 1, next);
      }
    }
  }

  /** Every page after the first starts strictly above the one before it: the
      second event of a continuing loop is the `max(id)` query, whose reply is
      above `start` and starts the rest of the loop. */
  lemma PagedAdvances(conn: Connection, page: int -> string, maxQuery: string, seen: nat, start: int)
    requires conn.Sane() && 0 <= start <= conn.maxIdAt(seen)
    requires page(start) !in conn.rejects && maxQuery !in conn.rejects && conn.maxIdAt(seen) != start
    ensures start < conn.maxIdAt(seen) <= conn.maxIdAt(seen + 1)
    ensures PagedLoop(conn, false, page, maxQuery, seen, start).events ==
      [Exec(page(start)), Query(maxQuery)] + PagedLoop(conn, false, page, maxQuery, seen + 1, conn.maxIdAt(seen)).events
  {
  }
}
