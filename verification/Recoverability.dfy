/**
  When a row can still be delivered, by the periodic tasks or with a person's help.

  The unique attempt number decides: a number that was inserted but never counted blocks the row for
  good, because every later worker tries to insert the same number again.
 */
module Recoverability {
  import opened Wrappers
  import opened Enums
  import opened Rows
  import opened Cells
  import opened CellInvariant
  import opened CellRuns

  ghost predicate Reaches(c: Cell, d: Cell) {
    exists es :: Run(c, es) && After(c, es) == d
  }

  ghost predicate CanBeSent(c: Cell) {
    exists d :: Reaches(c, d) && d.row.status == Sent
  }

  /** Storing the end of the attempt is allowed by the status this worker loaded. */
  predicate Lands(w: Worker, o: Outcome) {
    CanTransition(w.seen.status, Target(o, Number(w), w.seen.maxAttempts))
  }

  predicate SomeSendLands(w: Worker) {
    Lands(w, Accepted) || Lands(w, Temporary) || Lands(w, Permanent)
  }

  /** This worker can still store an attempt that counts. */
  predicate MayCount(c: Cell, w: Worker) {
    match w.pc
    case Refreshed => Number(w) !in c.log && SomeSendLands(w)
    case Holding => SomeSendLands(w)
    case Calling => SomeSendLands(w)
    case Returned(o) => o != Rejected && Lands(w, o)
    case Recorded(o) => o != Rejected && Lands(w, o)
    case _ => false
  }

  ghost predicate SomeoneMayCount(c: Cell) {
    exists i :: 0 <= i < |c.agents.workers| && MayCount(c, c.agents.workers[i])
  }

  /** The next attempt number is free and the row is not cancelled. */
  predicate Open(c: Cell) {
    c.row.attempts + 1 !in c.log && c.row.status != Cancelled
  }

  // ---------------------------------------------------------------------------------------------
  // Hopeless rows stay hopeless
  // ---------------------------------------------------------------------------------------------

  ghost predicate Hopeless(c: Cell) {
    c.row.status != Sent && !Open(c) && !SomeoneMayCount(c)
  }

  lemma HopelessQuiet(c: Cell, e: Event)
    requires Inv(c) && Enabled(c, e) && Hopeless(c) && Quiet(e)
    ensures Hopeless(Step(c, e))
  {
    QuietIsQuiet(c, e);
    var d := Step(c, e);
    forall i | 0 <= i < |d.agents.workers|
      ensures !MayCount(d, d.agents.workers[i])
    {
      if i < |c.agents.workers| {
        assert !MayCount(c, c.agents.workers[i]);
        assert d.agents.workers[i] == c.agents.workers[i];
      }
    }
  }

  lemma HopelessSave(c: Cell, i: nat, at: Time, draw: real)
    requires Inv(c) && Hopeless(c) && WorkerAt(c, i) && PcOf(c, i).Recorded?
    ensures Hopeless(SaveStep(c, i, at, draw))
  {
    var d := SaveStep(c, i, at, draw);
    assert WorkerOk(c, c.agents.workers[i]) && !MayCount(c, c.agents.workers[i]);
    assert d.row.attempts == c.row.attempts && d.log == c.log;
    forall k | 0 <= k < |d.agents.workers|
      ensures !MayCount(d, d.agents.workers[k])
    {
      assert !MayCount(c, c.agents.workers[k]);
    }
  }

  lemma HopelessInsert(c: Cell, i: nat)
    requires Inv(c) && Hopeless(c) && WorkerAt(c, i) && PcOf(c, i).Refreshed?
    ensures Hopeless(InsertStep(c, i))
  {
    var d := InsertStep(c, i);
    assert WorkerOk(c, c.agents.workers[i]) && !MayCount(c, c.agents.workers[i]);
    forall k | 0 <= k < |d.agents.workers|
      ensures !MayCount(d, d.agents.workers[k])
    {
      assert !MayCount(c, c.agents.workers[k]);
    }
  }

  /** The other worker events leave the log keys, the counter and a cancelled row alone. */
  lemma MoveFrame(c: Cell, e: Event)
    requires Enabled(c, e) && !Quiet(e) && !e.Save? && !e.Insert?
    requires Holds(c.agents.workers[e.i]) ==> Number(c.agents.workers[e.i]) in c.log
    ensures var d := Step(c, e);
      && d.row.attempts == c.row.attempts && c.log.Keys == d.log.Keys
      && (d.row.status == c.row.status || (d.row.status == Processing && Claimable(c.row.status)))
      && d.agents.workers == c.agents.workers[e.i := d.agents.workers[e.i]]
      && (e.Refresh? ==> d.agents.workers[e.i] == Worker(Refreshed, c.row))
      && (MayCount(d, d.agents.workers[e.i]) && !e.Refresh? ==> MayCount(c, c.agents.workers[e.i]))
  {
  }

  lemma HopelessMove(c: Cell, e: Event)
    requires Inv(c) && Enabled(c, e) && Hopeless(c) && !Quiet(e) && !e.Save? && !e.Insert?
    ensures Hopeless(Step(c, e))
  {
    var d := Step(c, e);
    assert WorkerOk(c, c.agents.workers[e.i]) && !MayCount(c, c.agents.workers[e.i]);
    MoveFrame(c, e);
    forall i | 0 <= i < |d.agents.workers|
      ensures !MayCount(d, d.agents.workers[i])
    {
      assert !MayCount(c, c.agents.workers[i]);
    }
  }

  lemma HopelessStep(c: Cell, e: Event)
    requires Inv(c) && Enabled(c, e) && Hopeless(c)
    ensures Hopeless(Step(c, e))
  {
    if Quiet(e) {
      HopelessQuiet(c, e);
    } else if e.Save? {
      HopelessSave(c, e.i, e.at, e.draw);
    } else if e.Insert? {
      HopelessInsert(c, e.i);
    } else {
      HopelessMove(c, e);
    }
  }

  lemma {:induction false} HopelessForever(c: Cell, es: seq<Event>)
    requires Inv(c) && Run(c, es) && Hopeless(c)
    ensures After(c, es).row.status != Sent
    decreases |es|
  {
    if es != [] {
      HopelessStep(c, es[0]);
      StepKeeps(c, es[0]);
      HopelessForever(Step(c, es[0]), es[1..]);
    }
  }

  // ---------------------------------------------------------------------------------------------
  // Everything else can be delivered
  // ---------------------------------------------------------------------------------------------

  lemma Go(b: Cell, c: Cell, e: Event)
    requires Reaches(b, c) && Enabled(c, e)
    ensures Reaches(b, Step(c, e))
  {
    var es :| Run(b, es) && After(b, es) == c;
    RunStep(c, e);
    RunAppend(b, es, [e]);
    assert Run(b, es + [e]) && After(b, es + [e]) == Step(c, e);
  }

  lemma Stay(c: Cell)
    ensures Reaches(c, c)
  {
    assert Run(c, []) && After(c, []) == c;
  }

  /** A pending or retried row is claimed by a dispatcher, published and marked queued. */
  lemma Enqueue(b: Cell, c: Cell) returns (d: Cell)
    requires Reaches(b, c) && (c.row.status == Pending || c.row.status == Retry)
    ensures Reaches(b, d)
    ensures d.row == c.row.(status := Queued, dispatchingAt := Some(0.0))
    ensures d.log == c.log && d.messages == c.messages + 1 && d.policy == c.policy
    ensures d.agents == c.agents.(dispatchers := c.agents.dispatchers + [Left])
  {
    var j := |c.agents.dispatchers|;
    var c1 := DispatchStep(c, 0.0);
    Go(b, c, Dispatch(0.0));
    assert c1.agents.dispatchers[j] == Won;
    var c2 := SetDispatcher(c1, j, Enqueued).(messages := c1.messages + 1);
    Go(b, c1, Publish(j));
    assert c2.agents.dispatchers[j] == Enqueued;
    d := SetDispatcher(c2, j, Left).(row := MarkQueuedRow(c2.row));
    Go(b, c2, MarkQueued(j));
  }

  /** A worker that has read the row claims it, refreshes and inserts its free number. */
  lemma ClaimAndInsert(b: Cell, c: Cell, i: nat) returns (d: Cell)
    requires Reaches(b, c) && WorkerAt(c, i) && PcOf(c, i).Read?
    requires Claimable(c.row.status) && c.row.attempts + 1 !in c.log
    ensures Reaches(b, d)
    ensures d.row == c.row.(status := Processing, processingAt := Some(0.0))
    ensures d.log == c.log[c.row.attempts + 1 := InProgress] && d.messages == c.messages && d.policy == c.policy
    ensures d.agents == c.agents.(workers := c.agents.workers[i := Worker(Holding, d.row)])
  {
    var c1 := ClaimStep(c, i, 0.0);
    Go(b, c, Claim(i, 0.0));
    var c2 := SetWorker(c1, i, Worker(Refreshed, c1.row));
    Go(b, c1, Refresh(i));
    d := InsertStep(c2, i);
    Go(b, c2, Insert(i));
  }

  /** And then it calls the provider. */
  lemma StartSending(b: Cell, c: Cell, i: nat) returns (d: Cell)
    requires Reaches(b, c) && WorkerAt(c, i) && PcOf(c, i).Read?
    requires Claimable(c.row.status) && c.row.attempts + 1 !in c.log
    ensures Reaches(b, d)
    ensures d.row == c.row.(status := Processing, processingAt := Some(0.0))
    ensures d.log == c.log[c.row.attempts + 1 := InProgress] && d.messages == c.messages && d.policy == c.policy
    ensures d.agents.workers == c.agents.workers[i := Worker(Calling, d.row)]
    ensures d.agents.dispatchers == c.agents.dispatchers
    ensures d.agents.history == c.agents.history.(calls := c.agents.history.calls + [c.row.attempts + 1])
  {
    var c1 := ClaimAndInsert(b, c, i);
    d := CallStep(c1, i);
    Go(b, c1, Call(i));
  }

  /** The provider accepts, and the worker records the attempt and stores SENT. */
  lemma FinishSending(b: Cell, c: Cell, i: nat) returns (d: Cell)
    requires Reaches(b, c) && WorkerAt(c, i) && PcOf(c, i).Calling? && Lands(c.agents.workers[i], Accepted)
    ensures Reaches(b, d)
    ensures d.row == c.row.(status := Sent, attempts := Number(c.agents.workers[i]))
    ensures d.log == c.log[Number(c.agents.workers[i]) := Succeeded]
    ensures d.agents.workers == c.agents.workers[i := c.agents.workers[i].(pc := Gone)]
    ensures d.agents.history ==
            c.agents.history.(delivered := c.agents.history.delivered + [Number(c.agents.workers[i])])
  {
    var c1 := ReturnStep(c, i, Accepted);
    Go(b, c, Return(i, Accepted));
    var c2 := RecordStep(c1, i);
    Go(b, c1, Record(i));
    d := SaveStep(c2, i, 0.0, 0.0);
    Go(b, c2, Save(i, 0.0, 0.0));
  }

  /** A worker that has read a claimable row with a free number sees the delivery through. */
  lemma DeliverRead(b: Cell, c: Cell, i: nat) returns (d: Cell)
    requires Reaches(b, c) && WorkerAt(c, i) && PcOf(c, i).Read?
    requires Claimable(c.row.status) && c.row.attempts + 1 !in c.log
    ensures Reaches(b, d) && d.row.status == Sent
    ensures d.agents.history.manualRetries == c.agents.history.manualRetries
  {
    var c1 := StartSending(b, c, i);
    d := FinishSending(b, c1, i);
  }

  /** A queued row with a message and a free number. */
  lemma DeliverMessage(b: Cell, c: Cell) returns (d: Cell)
    requires Reaches(b, c) && c.row.status == Queued && c.messages > 0 && c.row.attempts + 1 !in c.log
    ensures Reaches(b, d) && d.row.status == Sent
    ensures d.agents.history.manualRetries == c.agents.history.manualRetries
  {
    Go(b, c, Deliver);
    d := DeliverRead(b, DeliverStep(c), |c.agents.workers|);
  }

  /** A pending or retried row with a free number: one clean delivery stores SENT. */
  lemma DeliverDispatchable(b: Cell, c: Cell) returns (d: Cell)
    requires Reaches(b, c) && (c.row.status == Pending || c.row.status == Retry) && c.row.attempts + 1 !in c.log
    ensures Reaches(b, d) && d.row.status == Sent
    ensures d.agents.history.manualRetries == c.agents.history.manualRetries
  {
    var c1 := Enqueue(b, c);
    d := DeliverMessage(b, c1);
  }

  /** Recovery or a manual retry brings any row that is neither sent nor cancelled back to a dispatchable status. */
  lemma Reopen(b: Cell, c: Cell) returns (d: Cell)
    requires Reaches(b, c) && Stamped(c) && c.row.status != Sent && c.row.status != Cancelled
    ensures Reaches(b, d) && (d.row.status == Pending || d.row.status == Retry)
    ensures d.row.attempts == c.row.attempts && d.log == c.log && d.agents.workers == c.agents.workers
    ensures d.agents.history.delivered == c.agents.history.delivered
  {
    d := c;
    if c.row.status == Processing {
      var at := c.row.processingAt.value;
      Go(b, c, RecoverProcessing(at, 0.0));
      d := Step(c, RecoverProcessing(at, 0.0));
    } else if c.row.status != Pending && c.row.status != Retry {
      Go(b, c, ManualRetry);
      d := Step(c, ManualRetry);
    }
  }

  lemma DeliverOpen(b: Cell, c: Cell)
    requires Reaches(b, c) && Stamped(c) && Open(c)
    ensures CanBeSent(b)
  {
    if c.row.status != Sent {
      var d := Reopen(b, c);
      var e := DeliverDispatchable(b, d);
    }
  }

  /** An attempt that counts either stores SENT or leaves the row open. */
  lemma DeliverRecorded(b: Cell, c: Cell, i: nat)
    requires Inv(c) && Reaches(b, c) && WorkerAt(c, i) && PcOf(c, i).Recorded?
    requires PcOf(c, i).outcome != Rejected && Lands(c.agents.workers[i], PcOf(c, i).outcome)
    ensures CanBeSent(b)
  {
    SaverFacts(c, i);
    var d := SaveStep(c, i, 0.0, 0.0);
    Go(b, c, Save(i, 0.0, 0.0));
    SaveKeeps(c, i, 0.0, 0.0);
    if d.row.status != Sent {
      DeliverOpen(b, d);
    }
  }

  lemma DeliverReturned(b: Cell, c: Cell, i: nat)
    requires Inv(c) && Reaches(b, c) && WorkerAt(c, i) && PcOf(c, i).Returned?
    requires PcOf(c, i).outcome != Rejected && Lands(c.agents.workers[i], PcOf(c, i).outcome)
    ensures CanBeSent(b)
  {
    Go(b, c, Record(i));
    RecordKeeps(c, i);
    DeliverRecorded(b, RecordStep(c, i), i);
  }

  lemma DeliverCalling(b: Cell, c: Cell, i: nat)
    requires Inv(c) && Reaches(b, c) && WorkerAt(c, i) && PcOf(c, i).Calling? && SomeSendLands(c.agents.workers[i])
    ensures CanBeSent(b)
  {
    var w := c.agents.workers[i];
    var o := if Lands(w, Accepted) then Accepted else if Lands(w, Temporary) then Temporary else Permanent;
    Go(b, c, Return(i, o));
    ReturnKeeps(c, i, o);
    DeliverReturned(b, ReturnStep(c, i, o), i);
  }

  lemma DeliverHolding(b: Cell, c: Cell, i: nat)
    requires Inv(c) && Reaches(b, c) && WorkerAt(c, i) && PcOf(c, i).Holding? && SomeSendLands(c.agents.workers[i])
    ensures CanBeSent(b)
  {
    Go(b, c, Call(i));
    CallKeeps(c, i);
    DeliverCalling(b, CallStep(c, i), i);
  }

  lemma DeliverByWorker(c: Cell, i: nat)
    requires Inv(c) && WorkerAt(c, i) && MayCount(c, c.agents.workers[i])
    ensures CanBeSent(c)
  {
    Stay(c);
    match PcOf(c, i)
    case Refreshed =>
      Go(c, c, Insert(i));
      InsertKeeps(c, i);
      DeliverHolding(c, InsertStep(c, i), i);
    case Holding => DeliverHolding(c, c, i);
    case Calling => DeliverCalling(c, c, i);
    case Returned(_) => DeliverReturned(c, c, i);
    case Recorded(_) => DeliverRecorded(c, c, i);
    case _ =>
  }

  /**
    The exact condition, at every state the system can be in: a row can still end up SENT if and
    only if it is SENT already, or its next attempt number is free and it is not cancelled, or some
    live worker can still store an attempt that counts.
   */
  lemma RecoverableExactly(c: Cell)
    requires Inv(c)
    ensures CanBeSent(c) <==> c.row.status == Sent || Open(c) || SomeoneMayCount(c)
  {
    if c.row.status == Sent {
      Stay(c);
    } else if Open(c) {
      Stay(c);
      DeliverOpen(c, c);
    } else if SomeoneMayCount(c) {
      var i :| 0 <= i < |c.agents.workers| && MayCount(c, c.agents.workers[i]);
      DeliverByWorker(c, i);
    } else if CanBeSent(c) {
      var d :| Reaches(c, d) && d.row.status == Sent;
      var es :| Run(c, es) && After(c, es) == d;
      HopelessForever(c, es);
    }
  }

  /**
    With no worker alive past its claim, what matters is one lookup: is attempt number
    `attempts` + 1 already in the log? If it is, no recovery and no manual retry ever helps.
   */
  lemma RecoverableWhenIdle(c: Cell)
    requires Inv(c)
    requires forall i :: 0 <= i < |c.agents.workers| ==> !InFlight(c.agents.workers[i])
    ensures CanBeSent(c) <==>
            c.row.status == Sent || (c.row.attempts + 1 !in c.log && c.row.status != Cancelled)
  {
    RecoverableExactly(c);
  }

  /** A worker that dies between its insert and its save strands the row: it is never sent. */
  lemma CrashAfterInsertStrands(c: Cell, i: nat, es: seq<Event>)
    requires Inv(c) && WorkerAt(c, i) && Holds(c.agents.workers[i]) && c.row.status != Sent
    requires Run(Step(c, Crash(i)), es)
    ensures After(Step(c, Crash(i)), es).row.status != Sent
    ensures After(Step(c, Crash(i)), es).row.attempts == c.row.attempts
  {
    var d := Step(c, Crash(i));
    GoneKeeps(c, i);
    assert WorkerOk(c, c.agents.workers[i]);
    Stranded(d, es);
  }

  /** The next number is taken and nobody holds it. */
  ghost predicate Blocked(c: Cell) {
    && c.row.attempts + 1 in c.log
    && forall i :: 0 <= i < |c.agents.workers| ==> !Holds(c.agents.workers[i])
  }

  lemma BlockedStep(c: Cell, e: Event)
    requires Inv(c) && Enabled(c, e) && Blocked(c)
    ensures Blocked(Step(c, e)) && Step(c, e).row.attempts == c.row.attempts
    ensures Step(c, e).agents.history.calls == c.agents.history.calls
    ensures Step(c, e).row.status == Sent ==> c.row.status == Sent
  {
    var d := Step(c, e);
    if Quiet(e) {
      QuietIsQuiet(c, e);
    } else {
      assert WorkerOk(c, c.agents.workers[e.i]);
    }
    forall i | 0 <= i < |d.agents.workers|
      ensures !Holds(d.agents.workers[i])
    {
      if i < |c.agents.workers| {
        assert !Holds(c.agents.workers[i]);
      }
    }
  }

  /** A blocked row never sees another provider call, whatever recovery and the API do. */
  lemma {:induction false} Stranded(c: Cell, es: seq<Event>)
    requires Inv(c) && Blocked(c) && Run(c, es)
    ensures After(c, es).row.attempts == c.row.attempts
    ensures After(c, es).agents.history.calls == c.agents.history.calls
    ensures After(c, es).row.status == Sent ==> c.row.status == Sent
    decreases |es|
  {
    if es != [] {
      BlockedStep(c, es[0]);
      StepKeeps(c, es[0]);
      Stranded(Step(c, es[0]), es[1..]);
    }
  }

  /**
    A rejected recipient uses up an attempt number without counting it: retrying the row by hand never calls
    the provider.
   */
  lemma RejectedRowsAreBlocked(c: Cell, i: nat, at: Time, draw: real, es: seq<Event>)
    requires Inv(c) && Enabled(c, Save(i, at, draw)) && PcOf(c, i).outcome == Rejected
    requires Run(Step(c, Save(i, at, draw)), es)
    ensures var d := Step(c, Save(i, at, draw));
      && After(d, es).agents.history.calls == c.agents.history.calls
      && (After(d, es).row.status == Sent ==> c.row.status == Sent)
  {
    assert WorkerOk(c, c.agents.workers[i]);
    SaveKeeps(c, i, at, draw);
    var d := Step(c, Save(i, at, draw));
    assert d.row.attempts == c.row.attempts;
    Stranded(d, es);
  }
}
