/**
  Exactly when a stored CANCELLED can still be overwritten, recovery being patient or not.
 */
module Cancellation {
  import opened Enums
  import opened Rows
  import opened Cells
  import opened CellInvariant
  import opened Recoverability

  /** Some save of this worker is still ahead, and the status it loaded lets it through. */
  predicate MayWrite(c: Cell, w: Worker) {
    || MayCount(c, w)
    || ((w.pc == Returned(Rejected) || w.pc == Recorded(Rejected)) && Lands(w, Rejected))
  }

  ghost predicate SomeoneMayWrite(c: Cell) {
    exists i :: 0 <= i < |c.agents.workers| && MayWrite(c, c.agents.workers[i])
  }

  ghost predicate CanLeaveCancelled(c: Cell) {
    exists d :: Reaches(c, d) && d.row.status != Cancelled
  }

  ghost predicate Sealed(c: Cell) {
    c.row.status == Cancelled && !SomeoneMayWrite(c)
  }

  lemma SealedQuiet(c: Cell, e: Event)
    requires Inv(c) && Enabled(c, e) && Sealed(c) && Quiet(e)
    ensures Sealed(Step(c, e))
  {
    QuietIsQuiet(c, e);
    var d := Step(c, e);
    forall i | 0 <= i < |d.agents.workers|
      ensures !MayWrite(d, d.agents.workers[i])
    {
      if i < |c.agents.workers| {
        assert !MayWrite(c, c.agents.workers[i]);
        assert d.agents.workers[i] == c.agents.workers[i];
      }
    }
  }

  lemma SealedSave(c: Cell, i: nat, at: Time, draw: real)
    requires Sealed(c) && WorkerAt(c, i) && PcOf(c, i).Recorded?
    ensures Sealed(SaveStep(c, i, at, draw))
  {
    var d := SaveStep(c, i, at, draw);
    assert !MayWrite(c, c.agents.workers[i]);
    assert d == MoveTo(c, i, Gone);
    forall k | 0 <= k < |d.agents.workers|
      ensures !MayWrite(d, d.agents.workers[k])
    {
      assert !MayWrite(c, c.agents.workers[k]);
    }
  }

  lemma SealedInsert(c: Cell, i: nat)
    requires Sealed(c) && WorkerAt(c, i) && PcOf(c, i).Refreshed?
    ensures Sealed(InsertStep(c, i))
  {
    var d := InsertStep(c, i);
    assert !MayWrite(c, c.agents.workers[i]);
    forall k | 0 <= k < |d.agents.workers|
      ensures !MayWrite(d, d.agents.workers[k])
    {
      assert !MayWrite(c, c.agents.workers[k]);
    }
  }

  lemma MoveNoWrite(c: Cell, e: Event)
    requires Enabled(c, e) && !Quiet(e) && !e.Save? && !e.Insert? && !e.Refresh?
    requires !MayWrite(c, c.agents.workers[e.i])
    ensures !MayWrite(Step(c, e), Step(c, e).agents.workers[e.i])
  {
  }

  lemma SealedMove(c: Cell, e: Event)
    requires Inv(c) && Enabled(c, e) && Sealed(c) && !Quiet(e) && !e.Save? && !e.Insert?
    ensures Sealed(Step(c, e))
  {
    var d := Step(c, e);
    assert WorkerOk(c, c.agents.workers[e.i]) && !MayWrite(c, c.agents.workers[e.i]);
    MoveFrame(c, e);
    if !e.Refresh? {
      MoveNoWrite(c, e);
    }
    forall i | 0 <= i < |d.agents.workers|
      ensures !MayWrite(d, d.agents.workers[i])
    {
      assert !MayWrite(c, c.agents.workers[i]);
    }
  }

  lemma {:induction false} SealedForever(c: Cell, es: seq<Event>)
    requires Inv(c) && Sealed(c) && Run(c, es)
    ensures After(c, es).row.status == Cancelled
    decreases |es|
  {
    if es != [] {
      var e := es[0];
      if Quiet(e) {
        SealedQuiet(c, e);
      } else if e.Save? {
        SealedSave(c, e.i, e.at, e.draw);
      } else if e.Insert? {
        SealedInsert(c, e.i);
      } else {
        SealedMove(c, e);
      }
      StepKeeps(c, e);
      SealedForever(Step(c, e), es[1..]);
    }
  }

  lemma RejectedOverwrites(c: Cell, i: nat)
    requires WorkerAt(c, i) && Lands(c.agents.workers[i], Rejected)
    requires PcOf(c, i) == Returned(Rejected) || PcOf(c, i) == Recorded(Rejected)
    ensures CanLeaveCancelled(c)
  {
    Stay(c);
    var d := c;
    if PcOf(c, i).Returned? {
      Go(c, c, Record(i));
      d := RecordStep(c, i);
    }
    Go(c, d, Save(i, 0.0, 0.0));
    assert SaveStep(d, i, 0.0, 0.0).row.status == Failed;
  }

  /** A cancelled row can leave CANCELLED if and only if a worker that loaded it earlier can still save. */
  lemma CancelledIsFinalExactly(c: Cell)
    requires Inv(c) && c.row.status == Cancelled
    ensures CanLeaveCancelled(c) <==> SomeoneMayWrite(c)
  {
    if SomeoneMayWrite(c) {
      var i :| 0 <= i < |c.agents.workers| && MayWrite(c, c.agents.workers[i]);
      if MayCount(c, c.agents.workers[i]) {
        DeliverByWorker(c, i);
        var d :| Reaches(c, d) && d.row.status == Sent;
        assert d.row.status != Cancelled;
      } else {
        RejectedOverwrites(c, i);
      }
    } else if CanLeaveCancelled(c) {
      var d :| Reaches(c, d) && d.row.status != Cancelled;
      var es :| Run(c, es) && After(c, es) == d;
      SealedForever(c, es);
    }
  }
}
