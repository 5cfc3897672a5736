/**
 * The database connection, seen from the migrator. It records every statement
 * and query it receives, rejects the statements its oracle says it rejects, and
 * answers the three kinds of query the migrator reads (the largest copied id,
 * the newest delta value, the ids changed since an epoch) from reply functions
 * fixed in advance, indexed by how many such queries it has already answered.
 */
module Db {
  import opened Wrappers

  /** A value of the delta column (normally a timestamp), as it renders inside SQL. */
  datatype Epoch = Epoch(text: string)

  /** What a migrator does against the database, in order. */
  datatype Event =
    | Exec(sql: string)                                          // `execute(sql)`
    | Query(sql: string)                                         // `select_all(sql)`
    | Send(operation: string, table: string, args: seq<string>)  // `connection.send(op, table, *args)`
    | Pause                                                      // the settle pause before the locked pass

  /** The exceptions the modelled code raises. */
  datatype Error =
    | ExecutionFailed(sql: string)                  // the database rejected a statement or query
    | TableNameMismatch(expected: string, got: string)
    | WrongArity(operation: string)                 // ArgumentError from a hook or a constructor
    | MissingDeltaColumn(table: string, column: string)
    | NoEpochRow                                    // `select_all(...).first` was nil
    | UndefinedName(name: string)                   // NameError
    | NilTemplate                                   // NoMethodError on a nil copy template
    | OperationFailed(operation: string, table: string, args: seq<string>)  // the adapter raised on `connection.send(...)`

  /** The statements of `stmts` that are sent when execution stops at the first
      rejected one: everything up to and including that statement. */
  function Attempted<T>(stmts: seq<T>, rejects: set<T>): (r: seq<T>)
    ensures |r| <= |stmts|
    decreases |stmts|
  {
    if stmts == [] then []
    else if stmts[0] in rejects then [stmts[0]]
    else [stmts[0]] + Attempted(stmts[1..], rejects)
  }

  /** The first statement of `stmts` that is rejected, if any. */
  function FirstRejected<T>(stmts: seq<T>, rejects: set<T>): (r: Option<T>)
    ensures r.None? <==> forall i :: 0 <= i < |stmts| ==> stmts[i] !in rejects
    ensures r.Some? ==> r.value in rejects && r.value in stmts
    decreases |stmts|
  {
    if stmts == [] then None
    else if stmts[0] in rejects then Some(stmts[0])
    else FirstRejected(stmts[1..], rejects)
  }

  /** Execution runs everything when nothing is rejected, and otherwise stops
      exactly at the first rejected statement. */
  lemma {:induction false} AttemptedStopsAtFirstRejected<T>(stmts: seq<T>, rejects: set<T>)
    ensures FirstRejected(stmts, rejects).None? ==> Attempted(stmts, rejects) == stmts
    ensures FirstRejected(stmts, rejects).Some? ==>
      Attempted(stmts, rejects) != [] &&
      Attempted(stmts, rejects)[|Attempted(stmts, rejects)| - 1] == FirstRejected(stmts, rejects).value
    decreases |stmts|
  {
    if stmts != [] && stmts[0] !in rejects {
      AttemptedStopsAtFirstRejected(stmts[1..], rejects);
    }
  }

  /** The outcome of executing `stmts` one by one. */
  function RunOutcome(stmts: seq<string>, rejects: set<string>): Outcome<Error> {
    match FirstRejected(stmts, rejects)
    case None => Pass
    case Some(sql) => Fail(ExecutionFailed(sql))
  }

  /** Past a prefix of accepted statements, execution carries on with the rest. */
  lemma AfterClean<T>(stmts: seq<T>, i: nat, rejects: set<T>)
    requires i <= |stmts|
    requires forall j :: 0 <= j < i ==> stmts[j] !in rejects
    ensures FirstRejected(stmts, rejects) == FirstRejected(stmts[i..], rejects)
    ensures Attempted(stmts, rejects) == stmts[..i] + Attempted(stmts[i..], rejects)
  {
    FirstAfterClean(stmts, i, rejects);
    AttemptedAfterClean(stmts, i, rejects);
  }

  lemma {:induction false} FirstAfterClean<T>(stmts: seq<T>, i: nat, rejects: set<T>)
    requires i <= |stmts|
    requires forall j :: 0 <= j < i ==> stmts[j] !in rejects
    ensures FirstRejected(stmts, rejects) == FirstRejected(stmts[i..], rejects)
    decreases i
  {
    if i > 0 {
      var rest := stmts[1..];
      assert stmts[0] !in rejects;
      assert rest[i - 1..] == stmts[i..];
      FirstAfterClean(rest, i - 1, rejects);
    }
  }

  lemma {:induction false} AttemptedAfterClean<T>(stmts: seq<T>, i: nat, rejects: set<T>)
    requires i <= |stmts|
    requires forall j :: 0 <= j < i ==> stmts[j] !in rejects
    ensures Attempted(stmts, rejects) == stmts[..i] + Attempted(stmts[i..], rejects)
    decreases i
  {
    if i > 0 {
      var rest := stmts[1..];
      assert stmts[0] !in rejects;
      assert rest[i - 1..] == stmts[i..];
      calc {
        Attempted(stmts, rejects);
        [stmts[0]] + Attempted(rest, rejects);
        { AttemptedAfterClean(rest, i - 1, rejects); }
        [stmts[0]] + (rest[..i - 1] + Attempted(stmts[i..], rejects));
        { assert stmts[..i] == [stmts[0]] + rest[..i - 1]; }
        stmts[..i] + Attempted(stmts[i..], rejects);
      }
    }
  }

  /** Execution stops at the first rejected statement, after running it. */
  lemma HaltsAt<T>(stmts: seq<T>, i: nat, rejects: set<T>)
    requires i < |stmts| && stmts[i] in rejects
    requires forall j :: 0 <= j < i ==> stmts[j] !in rejects
    ensures Attempted(stmts, rejects) == stmts[..i + 1]
    ensures FirstRejected(stmts, rejects) == Some(stmts[i])
  {
    AfterClean(stmts, i, rejects);
    assert stmts[i..][0] == stmts[i];
    assert stmts[..i + 1] == stmts[..i] + [stmts[i]];
  }

  /** With no statement rejected, all of them run and the run passes. */
  lemma AllClean<T>(stmts: seq<T>, rejects: set<T>)
    requires forall j :: 0 <= j < |stmts| ==> stmts[j] !in rejects
    ensures Attempted(stmts, rejects) == stmts
    ensures FirstRejected(stmts, rejects) == None
  {
    AfterClean(stmts, |stmts|, rejects);
    assert stmts[..|stmts|] == stmts;
    assert stmts[|stmts|..] == [];
  }

  /** A run of statements halts at the first rejected one, which is its error. */
  lemma RunHaltsAt(stmts: seq<string>, i: nat, rejects: set<string>)
    requires i < |stmts| && stmts[i] in rejects
    requires forall j :: 0 <= j < i ==> stmts[j] !in rejects
    ensures ExecEvents(Attempted(stmts, rejects)) == ExecEvents(stmts[..i + 1])
    ensures RunOutcome(stmts, rejects) == Fail(ExecutionFailed(stmts[i]))
  {
    HaltsAt(stmts, i, rejects);
  }

  /** A run of statements none of which is rejected issues them all and passes. */
  lemma RunAllClean(stmts: seq<string>, rejects: set<string>)
    requires forall j :: 0 <= j < |stmts| ==> stmts[j] !in rejects
    ensures ExecEvents(Attempted(stmts, rejects)) == ExecEvents(stmts)
    ensures RunOutcome(stmts, rejects) == Pass
  {
    AllClean(stmts, rejects);
  }

  /** The outcome of sending `calls` one by one, as `each { connection.send }`
      does: the first call the adapter refuses raises. */
  function SendOutcome(calls: seq<Event>, refused: set<Event>): Outcome<Error>
    requires forall c :: c in calls ==> c.Send?
  {
    match FirstRejected(calls, refused)
    case None => Pass
    case Some(call) => Fail(OperationFailed(call.operation, call.table, call.args))
  }

  function ExecEvents(stmts: seq<string>): (r: seq<Event>)
    ensures |r| == |stmts| && forall i :: 0 <= i < |stmts| ==> r[i] == Exec(stmts[i])
    decreases |stmts|
  {
    if stmts == [] then [] else [Exec(stmts[0])] + ExecEvents(stmts[1..])
  }

  lemma ExecEventsAppend(a: seq<string>, b: seq<string>)
    ensures ExecEvents(a + b) == ExecEvents(a) + ExecEvents(b)
  {
    var l, r := ExecEvents(a + b), ExecEvents(a) + ExecEvents(b);
    forall i | 0 <= i < |l|
      ensures l[i] == r[i]
    {
      if i < |a| {
        assert (a + b)[i] == a[i];
      } else {
        assert (a + b)[i] == b[i - |a|];
      }
    }
  }

  lemma ExecEventsExtend(stmts: seq<string>, i: nat)
    requires i < |stmts|
    ensures ExecEvents(stmts[..i + 1]) == ExecEvents(stmts[..i]) + [Exec(stmts[i])]
  {
    assert stmts[..i + 1] == stmts[..i] + [stmts[i]];
    ExecEventsAppend(stmts[..i], [stmts[i]]);
  }

  /** No settle pause among `events`: only statements, queries and sends. */
  predicate NoPause(events: seq<Event>) {
    forall i :: 0 <= i < |events| ==> !events[i].Pause?
  }

  /** The events of an engine that reach the connection: none under a dry run,
      and otherwise all of them but the settle pause. */
  function Sent(dry: bool, events: seq<Event>): (r: seq<Event>)
    ensures dry ==> r == []
    ensures !dry && NoPause(events) ==> r == events
    ensures NoPause(r) && |r| <= |events|
    decreases |events|
  {
    if dry || events == [] then []
    else if events[0].Pause? then Sent(dry, events[1..])
    else [events[0]] + Sent(dry, events[1..])
  }

  lemma {:induction false} SentAppend(dry: bool, a: seq<Event>, b: seq<Event>)
    ensures Sent(dry, a + b) == Sent(dry, a) + Sent(dry, b)
    decreases |a|
  {
    if !dry && a != [] {
      assert (a + b)[1..] == a[1..] + b;
      SentAppend(dry, a[1..], b);
    } else if !dry {
      assert a + b == b;
    }
  }

  class Connection {
    /** Everything that reached the database, in order. */
    var log: seq<Event>
    /** Statements and queries the database refuses (a syntax error, a failed DDL, a lost lock). */
    const rejects: set<string>
    /** The `connection.send` calls the adapter raises on (a failed DDL, a wrong number of arguments). */
    const refusedSends: set<Event>
    /** `connection.columns(table).map(&:name)` for the migrated table. */
    const columns: seq<string>
    /** Whether `execute("SELECT * FROM ... LIMIT 1").fetch_row` finds a row. */
    const hasRows: bool
    /** The n-th reply to `select max(id) ...`, a NULL maximum already read as 0 (`nil.to_i`). */
    const maxIdAt: nat -> int
    /** The largest id the source table ever holds: no max-id reply exceeds it. */
    const idBound: int
    /** The n-th reply to the epoch query; `None` when it returns no row. */
    const epochAt: nat -> Option<Epoch>
    /** The n-th reply to the updated-ids query, `r['id'].to_i` of each row. */
    const idsAt: nat -> seq<int>
    /** How many replies of each kind have been read. */
    var maxIdReads: nat
    var epochReads: nat
    var idsReads: nat

    /** What the migrator relies on about the copy target: rows are only added to
        it, ids are positive, and it never holds more than the source's ids. */
    ghost predicate Sane() {
      (forall i :: 0 <= maxIdAt(i) <= idBound) &&
      (forall i, j :: i <= j ==> maxIdAt(i) <= maxIdAt(j))
    }

    constructor (rejects: set<string>, refusedSends: set<Event>, columns: seq<string>, hasRows: bool, maxIdAt: nat -> int,
                 idBound: int, epochAt: nat -> Option<Epoch>, idsAt: nat -> seq<int>)
      ensures log == [] && maxIdReads == 0 && epochReads == 0 && idsReads == 0
      ensures this.rejects == rejects && this.refusedSends == refusedSends && this.columns == columns && this.hasRows == hasRows
      ensures this.maxIdAt == maxIdAt && this.idBound == idBound
      ensures this.epochAt == epochAt && this.idsAt == idsAt
    {
      log := [];
      maxIdReads, epochReads, idsReads := 0, 0, 0;
      this.rejects, this.refusedSends := rejects, refusedSends;
      this.columns, this.hasRows := columns, hasRows;
      this.maxIdAt, this.idBound := maxIdAt, idBound;
      this.epochAt, this.idsAt := epochAt, idsAt;
    }

    method Execute(sql: string) returns (r: Outcome<Error>)
      modifies this`log
      ensures log == old(log) + [Exec(sql)]
      ensures r == if sql in rejects then Fail(ExecutionFailed(sql)) else Pass
    {
      log := log + [Exec(sql)];
      r := if sql in rejects then Fail(ExecutionFailed(sql)) else Pass;
    }

    /** `connection.send(operation, table, *args)`: the call reaches the adapter,
        which raises exactly on the calls it refuses. */
    method SendOperation(operation: string, table: string, args: seq<string>) returns (r: Outcome<Error>)
      modifies this`log
      ensures log == old(log) + [Send(operation, table, args)]
      ensures r == if Send(operation, table, args) in refusedSends then Fail(OperationFailed(operation, table, args)) else Pass
    {
      log := log + [Send(operation, table, args)];
      r := if Send(operation, table, args) in refusedSends then Fail(OperationFailed(operation, table, args)) else Pass;
    }

    method SelectMaxId(sql: string) returns (r: Result<int, Error>)
      modifies this`log, this`maxIdReads
      ensures log == old(log) + [Query(sql)]
      ensures sql in rejects ==> r == Err(ExecutionFailed(sql)) && maxIdReads == old(maxIdReads)
      ensures sql !in rejects ==> r == Ok(maxIdAt(old(maxIdReads))) && maxIdReads == old(maxIdReads) + 1
    {
      log := log + [Query(sql)];
      if sql in rejects {
        r := Err(ExecutionFailed(sql));
      } else {
        r := Ok(maxIdAt(maxIdReads));
        maxIdReads := maxIdReads + 1;
      }
    }

    method SelectEpoch(sql: string) returns (r: Result<Option<Epoch>, Error>)
      modifies this`log, this`epochReads
      ensures log == old(log) + [Query(sql)]
      ensures sql in rejects ==> r == Err(ExecutionFailed(sql)) && epochReads == old(epochReads)
      ensures sql !in rejects ==> r == Ok(epochAt(old(epochReads))) && epochReads == old(epochReads) + 1
    {
      log := log + [Query(sql)];
      if sql in rejects {
        r := Err(ExecutionFailed(sql));
      } else {
        r := Ok(epochAt(epochReads));
        epochReads := epochReads + 1;
      }
    }

    method SelectIds(sql: string) returns (r: Result<seq<int>, Error>)
      modifies this`log, this`idsReads
      ensures log == old(log) + [Query(sql)]
      ensures sql in rejects ==> r == Err(ExecutionFailed(sql)) && idsReads == old(idsReads)
      ensures sql !in rejects ==> r == Ok(idsAt(old(idsReads))) && idsReads == old(idsReads) + 1
    {
      log := log + [Query(sql)];
      if sql in rejects {
        r := Err(ExecutionFailed(sql));
      } else {
        r := Ok(idsAt(idsReads));
        idsReads := idsReads + 1;
      }
    }

    /** `stmts.each { |sql| connection.execute(sql) }`, stopping at the first failure. */
    method ExecuteEach(stmts: seq<string>) returns (r: Outcome<Error>)
      modifies this`log
      ensures log == old(log) + ExecEvents(Attempted(stmts, rejects))
      ensures r == RunOutcome(stmts, rejects)
    {
      var i := 0;
      while i < |stmts|
        invariant 0 <= i <= |stmts|
        invariant forall j :: 0 <= j < i ==> stmts[j] !in rejects
        invariant log == old(log) + ExecEvents(stmts[..i])
      {
        r := Execute(stmts[i]);
        ExecEventsExtend(stmts, i);
        if r.Fail? {
          RunHaltsAt(stmts, i, rejects);
          return;
        }
        i := i + 1;
      }
      RunAllClean(stmts, rejects);
      r := Pass;
    }
  }
}
