/** Concrete runs from a fresh row to the states in which a documented promise fails. */
module Witnesses {
  import opened Wrappers
  import opened Enums
  import opened Rows
  import Backoff
  import opened Cells
  import opened CellInvariant
  import opened CellRuns
  import opened Recoverability
  import opened Redelivery
  import opened Unaided

  const SOMEBODY := Recipient("user", "user:1", "a@b.c", "")
  const SAMPLE := NewRow(Notice("r", Email, System, "normal", SOMEBODY, "a@b.c", "", "", None), 0.0, 5)
  const FRESH := NewCell(SAMPLE, Backoff.Policy(30, 3600))

  /** Two copies of the message arrive, and a worker reads each. */
  lemma TwoReaders() returns (c: Cell)
    ensures Initial(FRESH) && Reaches(FRESH, c)
    ensures c.row == SAMPLE.(status := Queued, dispatchingAt := c.row.dispatchingAt)
    ensures c.log == FRESH.log && c.agents.history == FRESH.agents.history
    ensures |c.agents.workers| == 2 && PcOf(c, 0).Read? && PcOf(c, 1).Read?
  {
    Stay(FRESH);
    var c1 := Enqueue(FRESH, FRESH);
    Go(FRESH, c1, Duplicate);
    var c2 := c1.(messages := 2);
    Go(FRESH, c2, Deliver);
    var c3 := DeliverStep(c2);
    Go(FRESH, c3, Deliver);
    c := DeliverStep(c3);
  }

  /** The first of them is inside provider.send when recovery releases the row. */
  lemma SlowWorker() returns (c: Cell)
    ensures Initial(FRESH) && Reaches(FRESH, c)
    ensures c.row.status == Retry && c.row.attempts == 0
    ensures c.log == map[1 := InProgress]
    ensures |c.agents.workers| == 2 && PcOf(c, 0).Calling? && PcOf(c, 1).Read?
    ensures c.agents.workers[0].seen.status == Processing && c.agents.workers[0].seen.attempts == 0
    ensures c.agents.history.delivered == []
  {
    var c4 := TwoReaders();
    var c5 := StartSending(FRESH, c4, 0);
    Go(FRESH, c5, RecoverProcessing(300.0, 300.0));
    c := Step(c5, RecoverProcessing(300.0, 300.0));
  }

  /** A row cancelled while its released worker is still sending ends up SENT. */
  lemma CancelledThenSent() returns (cancelled: Cell, sent: Cell)
    ensures Initial(FRESH) && Reaches(FRESH, cancelled) && Reaches(cancelled, sent)
    ensures cancelled.row.status == Cancelled && sent.row.status == Sent
  {
    var c := SlowWorker();
    cancelled := Step(c, Cancel);
    Go(FRESH, c, Cancel);
    Stay(cancelled);
    sent := FinishSending(cancelled, cancelled, 0);
  }

  /** The bound of two deliveries is reached: a worker claims the released row and refreshes after SENT is stored. */
  lemma DeliveredTwice() returns (d: Cell)
    ensures Initial(FRESH) && Reaches(FRESH, d)
    ensures d.agents.history.delivered == [1, 2] && d.row.status == Sent
  {
    var c := SlowWorker();
    var c1 := ClaimStep(c, 1, 300.0);
    Go(FRESH, c, Claim(1, 300.0));
    var c2 := FinishSending(FRESH, c1, 0);
    var c3 := SetWorker(c2, 1, Worker(Refreshed, c2.row));
    Go(FRESH, c2, Refresh(1));
    d := SecondDelivery(FRESH, c3, 1);
  }

  /** The slow worker of the released row dies: recovery has returned a row that is lost for good. */
  lemma ReleasedAndLost() returns (d: Cell)
    ensures Initial(FRESH) && Reaches(FRESH, d)
    ensures d.row.status == Retry && !CanBeSent(d)
  {
    var c := SlowWorker();
    Go(FRESH, c, Crash(0));
    d := Step(c, Crash(0));
    ReachesKeeps(FRESH, d);
    assert forall i :: 0 <= i < |d.agents.workers| ==> !InFlight(d.agents.workers[i]);
    RecoverableWhenIdle(d);
  }

  /** The first worker finds the recipient invalid, and the row fails with its number used and not counted. */
  lemma RejectedRow() returns (c: Cell)
    ensures Initial(FRESH) && Reaches(FRESH, c)
    ensures c.row.status == Failed && c.row.attempts == 0 && 1 in c.log && c.agents.history.manualRetries == 0
    ensures |c.agents.workers| == 2 && PcOf(c, 0).Gone? && PcOf(c, 1).Read?
  {
    var c1 := TwoReaders();
    var c2 := ClaimAndInsert(FRESH, c1, 0);
    c := RejectAndFail(FRESH, c2, 0);
  }

  /** Retried by hand the row is PENDING again, but it can never be sent. */
  lemma RetriedInVain() returns (d: Cell)
    ensures Initial(FRESH) && Reaches(FRESH, d)
    ensures d.row.status == Pending && d.agents.history.manualRetries == 1 && !CanBeSent(d)
  {
    var c := RejectedRow();
    Go(FRESH, c, ManualRetry);
    d := RetryStep(c);
    ReachesKeeps(FRESH, d);
    RecoverableWhenIdle(d);
  }

  lemma RejectAndFail(b: Cell, c: Cell, i: nat) returns (d: Cell)
    requires Reaches(b, c) && WorkerAt(c, i) && PcOf(c, i).Holding? && Lands(c.agents.workers[i], Rejected)
    ensures Reaches(b, d)
    ensures d.row == c.row.(status := Failed, attempts := c.agents.workers[i].seen.attempts)
    ensures d.log == c.log[Number(c.agents.workers[i]) := Unsuccessful]
    ensures d.agents.workers == c.agents.workers[i := c.agents.workers[i].(pc := Gone)]
    ensures d.agents.history == c.agents.history
  {
    var c1 := MoveTo(c, i, Returned(Rejected));
    Go(b, c, Reject(i));
    var c2 := RecordStep(c1, i);
    Go(b, c1, Record(i));
    var c3 := SaveStep(c2, i, 0.0, 0.0);
    Go(b, c2, Save(i, 0.0, 0.0));
    Go(b, c3, Fall(i));
    d := MoveTo(c3, i, Gone);
  }

  lemma ReachesKeeps(c: Cell, d: Cell)
    requires Initial(c) && Reaches(c, d)
    ensures Inv(d)
  {
    InitialInv(c);
    var es :| Run(c, es) && After(c, es) == d;
    RunKeeps(c, es);
  }

  /** The first worker claims and is slow; recovery releases the row before it loads and inserts. */
  lemma LoadedTooLate() returns (d: Cell)
    ensures Initial(FRESH) && Reaches(FRESH, d)
    ensures d.row.status == Retry && d.row.attempts == 0 && 1 in d.log
    ensures |d.agents.workers| == 2 && PcOf(d, 0).Holding? && PcOf(d, 1).Read?
    ensures d.agents.workers[0].seen == d.row
  {
    var c := TwoReaders();
    var c1 := ClaimStep(c, 0, 0.0);
    Go(FRESH, c, Claim(0, 0.0));
    var e := RecoverProcessing(300.0, 300.0);
    var c2 := c1.(row := RecoveredRow(c1.row, e));
    Go(FRESH, c1, e);
    var c3 := SetWorker(c2, 0, Worker(Refreshed, c2.row));
    Go(FRESH, c2, Refresh(0));
    d := InsertStep(c3, 0);
    Go(FRESH, c3, Insert(0));
  }

  /**
    That worker is alive and owns number 1, but it loaded RETRY, from which neither SENT nor RETRY may be
    stored: the row that recovery has returned waits for a person.
   */
  lemma ReleasedTooEarly() returns (d: Cell)
    ensures Initial(FRESH) && Reaches(FRESH, d)
    ensures d.row.status == Retry && WorkerAt(d, 0) && PcOf(d, 0).Holding? && CanBeSent(d) && !CanBeSentUnaided(d)
  {
    d := LoadedTooLate();
    ReachesKeeps(FRESH, d);
    UnaidedExactly(d);
    assert MayCount(d, d.agents.workers[0]);
    RecoverableExactly(d);
  }

  /** The only message of a queued row is lost: the row is forgotten until a person retries it. */
  lemma MessageLost() returns (d: Cell)
    ensures Initial(FRESH) && Reaches(FRESH, d)
    ensures d.row.status == Queued && CanBeSent(d) && !CanBeSentUnaided(d)
  {
    Stay(FRESH);
    var c := Enqueue(FRESH, FRESH);
    Go(FRESH, c, Lose);
    d := c.(messages := 0);
    ReachesKeeps(FRESH, d);
    UnaidedExactly(d);
    RecoverableExactly(d);
  }

  /** The retry action accepts a row that has not failed: here one that is queued with two workers about to claim it. */
  lemma RetriedWhileQueued() returns (c: Cell, d: Cell)
    ensures Initial(FRESH) && Reaches(FRESH, c) && Enabled(c, ManualRetry) && d == Step(c, ManualRetry)
    ensures c.row.status == Queued && d.row.status == Pending && d.agents.history.manualRetries == 1
  {
    c := TwoReaders();
    d := RetryStep(c);
  }

  /**
    `delay` raises after the message has reached the broker, the row is released, and a worker claims it from
    PENDING.
   */
  lemma ClaimedWhilePending() returns (c: Cell, d: Cell)
    ensures Initial(FRESH) && Reaches(FRESH, c) && Enabled(c, Claim(0, 0.0)) && d == Step(c, Claim(0, 0.0))
    ensures c.row.status == Pending && d.row.status == Processing && !CanTransition(Pending, Processing)
  {
    Stay(FRESH);
    var c1 := DispatchStep(FRESH, 0.0);
    Go(FRESH, FRESH, Dispatch(0.0));
    var c2 := PublishFailsStep(c1, 0, true);
    Go(FRESH, c1, PublishFails(0, true));
    var c3 := SettleStep(c2, 0, false);
    Go(FRESH, c2, Release(0));
    c := DeliverStep(c3);
    Go(FRESH, c3, Deliver);
    d := ClaimStep(c, 0, 0.0);
  }
}
