/**
  Exactly when a message that the provider has accepted once can be accepted again. A worker never
  looks at the status again after its refresh, so it is the attempt numbers that decide.
 */
module Redelivery {
  import opened Enums
  import opened Rows
  import opened Cells
  import opened CellInvariant
  import opened CellRuns
  import opened Recoverability

  ghost predicate DeliversAgain(c: Cell) {
    exists d :: Reaches(c, d) && |d.agents.history.delivered| > |c.agents.history.delivered|
  }

  /** This worker can still call the provider although SENT is stored. */
  predicate SendsPastSent(c: Cell, w: Worker) {
    match w.pc
    case Claimed => c.row.attempts + 1 !in c.log
    case Refreshed => Number(w) !in c.log
    case Holding => true
    case Calling => true
    case _ => false
  }

  ghost predicate SomeoneSendsPastSent(c: Cell) {
    exists i :: 0 <= i < |c.agents.workers| && SendsPastSent(c, c.agents.workers[i])
  }

  ghost predicate SomeoneClaimed(c: Cell) {
    exists i :: 0 <= i < |c.agents.workers| && c.agents.workers[i].pc.Claimed?
  }

  /** The provider has accepted this worker's attempt, and SENT is still to be stored. */
  predicate WillStoreSent(w: Worker) {
    HasDelivered(w.pc) && Lands(w, Accepted)
  }

  ghost predicate SomeoneWillStoreSent(c: Cell) {
    exists i :: 0 <= i < |c.agents.workers| && WillStoreSent(c.agents.workers[i])
  }

  /** Whether a second copy can still go out. */
  ghost predicate SecondCopyAhead(c: Cell) {
    if c.row.status == Sent then SomeoneSendsPastSent(c)
    else SomeoneWillStoreSent(c) && (c.row.status != Cancelled || SomeoneClaimed(c))
  }

  // ---------------------------------------------------------------------------------------------
  // A second copy goes out
  // ---------------------------------------------------------------------------------------------

  /** A worker that loaded SENT still inserts the next number and sends; only its save is refused. */
  lemma SecondDelivery(b: Cell, c: Cell, i: nat) returns (d: Cell)
    requires Reaches(b, c) && WorkerAt(c, i) && PcOf(c, i).Refreshed? && Number(c.agents.workers[i]) !in c.log
    ensures Reaches(b, d) && d.row == c.row
    ensures d.agents.history.delivered == c.agents.history.delivered + [Number(c.agents.workers[i])]
  {
    var c1 := InsertStep(c, i);
    Go(b, c, Insert(i));
    var c2 := CallStep(c1, i);
    Go(b, c1, Call(i));
    d := ReturnStep(c2, i, Accepted);
    Go(b, c2, Return(i, Accepted));
  }

  lemma SendPastSent(b: Cell, c: Cell, i: nat) returns (d: Cell)
    requires Reaches(b, c) && WorkerAt(c, i) && SendsPastSent(c, c.agents.workers[i])
    ensures Reaches(b, d) && |d.agents.history.delivered| == |c.agents.history.delivered| + 1
  {
    match PcOf(c, i)
    case Claimed =>
      Go(b, c, Refresh(i));
      d := SecondDelivery(b, SetWorker(c, i, Worker(Refreshed, c.row)), i);
    case Refreshed =>
      d := SecondDelivery(b, c, i);
    case Holding =>
      Go(b, c, Call(i));
      var c1 := CallStep(c, i);
      Go(b, c1, Return(i, Accepted));
      d := ReturnStep(c1, i, Accepted);
    case Calling =>
      Go(b, c, Return(i, Accepted));
      d := ReturnStep(c, i, Accepted);
    case _ =>
  }

  /** A row that is neither sent nor cancelled can be claimed once more. */
  lemma ClaimOnceMore(b: Cell, c: Cell) returns (d: Cell, j: nat)
    requires Reaches(b, c) && Stamped(c) && c.row.status != Sent && c.row.status != Cancelled
    ensures Reaches(b, d) && j == |c.agents.workers| && WorkerAt(d, j) && PcOf(d, j).Claimed?
    ensures d.row.attempts == c.row.attempts && d.log == c.log && d.agents.workers[..j] == c.agents.workers
    ensures d.agents.history.delivered == c.agents.history.delivered
  {
    var c1 := Reopen(b, c);
    var c2 := Enqueue(b, c1);
    j := |c.agents.workers|;
    Go(b, c2, Deliver);
    var c3 := DeliverStep(c2);
    Go(b, c3, Claim(j, 0.0));
    d := ClaimStep(c3, j, 0.0);
  }

  lemma StoreSent(b: Cell, c: Cell, i: nat) returns (d: Cell)
    requires Inv(c) && Reaches(b, c) && WorkerAt(c, i) && WillStoreSent(c.agents.workers[i])
    ensures Reaches(b, d) && d.row.status == Sent && d.row.attempts == c.row.attempts + 1
    ensures d.log.Keys == c.log.Keys && |d.agents.workers| == |c.agents.workers|
    ensures forall k :: 0 <= k < |c.agents.workers| && k != i ==> d.agents.workers[k] == c.agents.workers[k]
    ensures d.agents.history.delivered == c.agents.history.delivered
  {
    assert WorkerOk(c, c.agents.workers[i]);
    d := c;
    if PcOf(c, i).Returned? {
      Go(b, c, Record(i));
      d := RecordStep(c, i);
    }
    Go(b, d, Save(i, 0.0, 0.0));
    d := SaveStep(d, i, 0.0, 0.0);
  }

  /** Another worker claims before SENT is stored and refreshes after it: the next number is free. */
  lemma SendAfterStore(b: Cell, c: Cell, i: nat, j: nat) returns (d: Cell)
    requires Inv(c) && Reaches(b, c) && WorkerAt(c, i) && WillStoreSent(c.agents.workers[i])
    requires WorkerAt(c, j) && PcOf(c, j).Claimed?
    ensures Reaches(b, d) && |d.agents.history.delivered| == |c.agents.history.delivered| + 1
  {
    assert WorkerOk(c, c.agents.workers[i]);
    var c1 := StoreSent(b, c, i);
    assert c1.row.attempts + 1 == c.row.attempts + 2 && c.row.attempts + 2 !in c.log.Keys;
    assert SendsPastSent(c1, c1.agents.workers[j]);
    d := SendPastSent(b, c1, j);
  }

  lemma SecondCopy(c: Cell)
    requires Inv(c) && SecondCopyAhead(c)
    ensures DeliversAgain(c)
  {
    Stay(c);
    if c.row.status == Sent {
      var i :| 0 <= i < |c.agents.workers| && SendsPastSent(c, c.agents.workers[i]);
      var d := SendPastSent(c, c, i);
    } else {
      var i :| 0 <= i < |c.agents.workers| && WillStoreSent(c.agents.workers[i]);
      if SomeoneClaimed(c) {
        var j :| 0 <= j < |c.agents.workers| && c.agents.workers[j].pc.Claimed?;
        var d := SendAfterStore(c, c, i, j);
      } else {
        var c1, j := ClaimOnceMore(c, c);
        ReachesInv(c, c1);
        assert c1.agents.workers[i] == c1.agents.workers[..j][i];
        var d := SendAfterStore(c, c1, i, j);
      }
    }
  }

  lemma ReachesInv(c: Cell, d: Cell)
    requires Inv(c) && Reaches(c, d)
    ensures Inv(d)
  {
    var es :| Run(c, es) && After(c, es) == d;
    RunKeeps(c, es);
  }

  // ---------------------------------------------------------------------------------------------
  // No second copy ever goes out
  // ---------------------------------------------------------------------------------------------

  /** Something was accepted, and nothing more can be. */
  ghost predicate Settled(c: Cell) {
    && c.agents.history.delivered != []
    && !SecondCopyAhead(c)
  }

  /** Of a row not stored as SENT, the accepted attempt is the one that is not counted yet. */
  lemma AcceptedIsNext(c: Cell)
    requires Inv(c) && c.agents.history.delivered != [] && c.row.status != Sent
    ensures c.row.attempts + 1 in c.log
    ensures forall i :: 0 <= i < |c.agents.workers| && Holds(c.agents.workers[i]) ==>
              HasDelivered(c.agents.workers[i].pc)
    ensures forall i :: 0 <= i < |c.agents.workers| && c.agents.workers[i].pc.Refreshed? ==>
              Number(c.agents.workers[i]) in c.log
  {
    var n := c.agents.history.delivered[0];
    assert n in c.agents.history.delivered && n == c.row.attempts + 1;
    forall i | 0 <= i < |c.agents.workers|
      ensures WorkerOk(c, c.agents.workers[i])
    {
    }
  }

  lemma SettledQuiet(c: Cell, e: Event)
    requires Inv(c) && Enabled(c, e) && Settled(c) && Quiet(e)
    ensures Settled(Step(c, e)) && Step(c, e).agents.history.delivered == c.agents.history.delivered
  {
    QuietIsQuiet(c, e);
    var d := Step(c, e);
    assert d.row.status == Sent <==> c.row.status == Sent;
    assert c.row.status == Cancelled ==> d.row == c.row;
    forall i | 0 <= i < |d.agents.workers|
      ensures i < |c.agents.workers| ==> d.agents.workers[i] == c.agents.workers[i]
      ensures i >= |c.agents.workers| ==> d.agents.workers[i].pc.Read?
    {
    }
  }

  /** Once SENT is stored and nobody can get past it, a worker's event changes nothing of that. */
  lemma SettledPastSent(c: Cell, e: Event)
    requires Inv(c) && Enabled(c, e) && Settled(c) && !Quiet(e) && c.row.status == Sent
    ensures Settled(Step(c, e)) && Step(c, e).agents.history.delivered == c.agents.history.delivered
  {
    var d := Step(c, e);
    FinalStep(c, e);
    AttemptsGrowByOne(c, e);
    assert !SendsPastSent(c, c.agents.workers[e.i]);
    forall k | 0 <= k < |d.agents.workers|
      ensures !SendsPastSent(d, d.agents.workers[k])
    {
      assert !SendsPastSent(c, c.agents.workers[k]);
    }
  }

  lemma SettledSave(c: Cell, i: nat, at: Time, draw: real)
    requires Inv(c) && Enabled(c, Save(i, at, draw)) && Settled(c) && c.row.status != Sent
    ensures Settled(SaveStep(c, i, at, draw))
    ensures SaveStep(c, i, at, draw).agents.history.delivered == c.agents.history.delivered
  {
    var d := SaveStep(c, i, at, draw);
    AcceptedIsNext(c);
    assert PcOf(c, i).outcome == Accepted && Holds(c.agents.workers[i]);
    if Lands(c.agents.workers[i], Accepted) {
      assert WillStoreSent(c.agents.workers[i]);
      forall k | 0 <= k < |d.agents.workers|
        ensures !SendsPastSent(d, d.agents.workers[k])
      {
        assert k != i ==> d.agents.workers[k] == c.agents.workers[k];
      }
    } else {
      assert d == MoveTo(c, i, Gone);
      StillSettled(c, d, i);
    }
  }

  /** A worker that moves on without delivering or claiming past the guard opens no way to a second copy. */
  lemma StillSettled(c: Cell, d: Cell, i: nat)
    requires Settled(c) && c.row.status != Sent && d.row.status != Sent && WorkerAt(c, i)
    requires d.agents.history.delivered == c.agents.history.delivered
    requires |d.agents.workers| == |c.agents.workers|
    requires forall k :: 0 <= k < |c.agents.workers| && k != i ==> d.agents.workers[k] == c.agents.workers[k]
    requires WillStoreSent(d.agents.workers[i]) ==> WillStoreSent(c.agents.workers[i])
    requires c.row.status == Cancelled ==> d.row.status == Cancelled && (PcOf(d, i).Claimed? ==> PcOf(c, i).Claimed?)
    ensures Settled(d)
  {
    assert SomeoneWillStoreSent(d) ==> SomeoneWillStoreSent(c);
    assert c.row.status == Cancelled && SomeoneClaimed(d) ==> SomeoneClaimed(c);
  }

  lemma SettledMove(c: Cell, e: Event)
    requires Inv(c) && Enabled(c, e) && Settled(c) && !Quiet(e) && !e.Save? && c.row.status != Sent
    ensures Settled(Step(c, e)) && Step(c, e).agents.history.delivered == c.agents.history.delivered
  {
    AcceptedIsNext(c);
    var w := c.agents.workers[e.i];
    assert w.pc.Refreshed? ==> Number(w) in c.log;
    assert Holds(w) ==> HasDelivered(w.pc);
    StillSettled(c, Step(c, e), e.i);
  }

  lemma {:induction false} SettledForever(c: Cell, es: seq<Event>)
    requires Inv(c) && Settled(c) && Run(c, es)
    ensures After(c, es).agents.history.delivered == c.agents.history.delivered
    decreases |es|
  {
    if es != [] {
      var e := es[0];
      if Quiet(e) {
        SettledQuiet(c, e);
      } else if c.row.status == Sent {
        SettledPastSent(c, e);
      } else if e.Save? {
        SettledSave(c, e.i, e.at, e.draw);
      } else {
        SettledMove(c, e);
      }
      StepKeeps(c, e);
      SettledForever(Step(c, e), es[1..]);
    }
  }

  /**
    The exact condition, at every state of a message accepted once: it can be accepted again if and only
    if SENT is stored and a worker is past the status check with a free number, or SENT is still to be
    stored and another worker has claimed the row or still can.
   */
  lemma DeliversAgainExactly(c: Cell)
    requires Inv(c) && c.agents.history.delivered != []
    ensures DeliversAgain(c) <==> SecondCopyAhead(c)
  {
    if SecondCopyAhead(c) {
      SecondCopy(c);
    } else if DeliversAgain(c) {
      var d :| Reaches(c, d) && |d.agents.history.delivered| > |c.agents.history.delivered|;
      var es :| Run(c, es) && After(c, es) == d;
      SettledForever(c, es);
    }
  }

  /**
    For a row stored as SENT: some live worker claimed before SENT was stored and has not been stopped by its
    number.
   */
  lemma DeliversPastSentExactly(c: Cell)
    requires Inv(c) && c.row.status == Sent
    ensures DeliversAgain(c) <==>
            exists i :: 0 <= i < |c.agents.workers| && SendsPastSent(c, c.agents.workers[i])
  {
    DeliversAgainExactly(c);
  }
}
