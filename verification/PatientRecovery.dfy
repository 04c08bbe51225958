/**
  Runs in which recovery releases a PROCESSING row only after the worker that claimed it is done or
  dead; it may run at any time and leave the row alone. The program approximates this with a timeout;
  under it the status machine is respected end to end and nothing is delivered twice.
 */
module PatientRecovery {
  import opened Enums
  import opened Rows
  import opened Cells
  import opened CellInvariant
  import opened CellRuns

  predicate NobodyInFlight(c: Cell) {
    forall i :: 0 <= i < |c.agents.workers| ==> !InFlight(c.agents.workers[i])
  }

  predicate Patient(c: Cell, e: Event) {
    e.RecoverProcessing? && RecoveredRow(c.row, e) != c.row ==> NobodyInFlight(c)
  }

  /** In terms of the clock: no live worker past its claim, or no claim, or one younger than the cutoff. */
  lemma PatientExactly(c: Cell, at: Time, timeout: Time)
    ensures Patient(c, RecoverProcessing(at, timeout)) <==>
            (c.row.status == Processing && c.row.processingAt.Some? && c.row.processingAt.value <= at - timeout
             ==> NobodyInFlight(c))
  {
  }

  predicate PatientRun(c: Cell, es: seq<Event>)
    decreases |es|
  {
    es == [] || (Enabled(c, es[0]) && Patient(c, es[0]) && PatientRun(Step(c, es[0]), es[1..]))
  }

  lemma {:induction false} PatientRunIsRun(c: Cell, es: seq<Event>)
    requires PatientRun(c, es)
    ensures Run(c, es)
    decreases |es|
  {
    if es != [] {
      PatientRunIsRun(Step(c, es[0]), es[1..]);
    }
  }

  /** The transition table, plus the two claims it does not list. */
  predicate Allowed(from: Status, to: Status) {
    || from == to
    || CanTransition(from, to)
    || (to == Processing && (from == Pending || from == Retry))
  }

  ghost predicate WorkerCurrent(c: Cell, w: Worker) {
    && (InFlight(w) ==> c.row.status == Processing)
    && (Loaded(w) ==> w.seen.status == Processing && w.seen.attempts == c.row.attempts)
  }

  /** One worker in flight, with an up-to-date copy of a row that is PROCESSING. */
  ghost predicate Orderly(c: Cell) {
    && (forall i :: 0 <= i < |c.agents.workers| ==> WorkerCurrent(c, c.agents.workers[i]))
    && (forall i, j :: 0 <= i < j < |c.agents.workers| ==>
          !(InFlight(c.agents.workers[i]) && InFlight(c.agents.workers[j])))
    && |c.agents.history.delivered| <= 1
  }

  /** An event that starts no worker and touches no PROCESSING row keeps the order. */
  lemma QuietOrderly(c: Cell, e: Event)
    requires Inv(c) && Orderly(c) && Enabled(c, e) && Patient(c, e) && Quiet(e)
    ensures Orderly(Step(c, e))
  {
    QuietIsQuiet(c, e);
    var d := Step(c, e);
    assert c.row.status == Processing && d.row != c.row ==> e.RecoverProcessing?;
    forall k | 0 <= k < |d.agents.workers|
      ensures WorkerCurrent(d, d.agents.workers[k])
    {
      if k < |c.agents.workers| {
        assert WorkerCurrent(c, c.agents.workers[k]);
        assert d.agents.workers[k] == c.agents.workers[k];
      }
    }
  }

  /** Nobody else is in flight when a claim succeeds, for the row is not PROCESSING then. */
  lemma ClaimOrderly(c: Cell, i: nat, at: Time)
    requires Inv(c) && Orderly(c) && Enabled(c, Claim(i, at))
    ensures Orderly(ClaimStep(c, i, at))
  {
    var d := ClaimStep(c, i, at);
    forall k | 0 <= k < |d.agents.workers|
      ensures WorkerCurrent(d, d.agents.workers[k])
    {
      assert WorkerCurrent(c, c.agents.workers[k]);
    }
  }

  /** A worker that moves on, in flight before if after, and with a current copy. */
  lemma MoveOnOrderly(c: Cell, d: Cell, i: nat)
    requires Orderly(c) && WorkerAt(c, i) && WorkerAt(d, i)
    requires d.agents.workers == c.agents.workers[i := d.agents.workers[i]]
    requires d.row == c.row && d.agents.history.delivered == c.agents.history.delivered
    requires InFlight(d.agents.workers[i]) ==> InFlight(c.agents.workers[i])
    requires Loaded(d.agents.workers[i]) && !Loaded(c.agents.workers[i]) ==> d.agents.workers[i].seen == c.row
    requires Loaded(d.agents.workers[i]) && Loaded(c.agents.workers[i]) ==>
              d.agents.workers[i].seen == c.agents.workers[i].seen
    ensures Orderly(d)
  {
    assert WorkerCurrent(c, c.agents.workers[i]);
    forall k | 0 <= k < |d.agents.workers|
      ensures WorkerCurrent(d, d.agents.workers[k])
    {
      assert WorkerCurrent(c, c.agents.workers[k]);
    }
  }

  lemma WorkerOrderly(c: Cell, e: Event)
    requires Inv(c) && Orderly(c) && Enabled(c, e) && !Quiet(e) && !e.Save? && !e.Return?
    ensures Orderly(Step(c, e))
  {
    if e.Claim? {
      ClaimOrderly(c, e.i, e.at);
    } else {
      MoveOnOrderly(c, Step(c, e), e.i);
    }
  }

  lemma ReturnOrderly(c: Cell, i: nat, o: Outcome)
    requires Inv(c) && Orderly(c) && Enabled(c, Return(i, o))
    ensures Orderly(Step(c, Return(i, o)))
  {
    assert WorkerOk(c, c.agents.workers[i]) && WorkerCurrent(c, c.agents.workers[i]);
    DistinctBetween(c.agents.history.delivered, 1, 0);
    var d := Step(c, Return(i, o));
    forall k | 0 <= k < |d.agents.workers|
      ensures WorkerCurrent(d, d.agents.workers[k])
    {
      assert WorkerCurrent(c, c.agents.workers[k]);
    }
  }

  lemma SaveOrderly(c: Cell, i: nat, at: Time, draw: real)
    requires Inv(c) && Orderly(c) && Enabled(c, Save(i, at, draw))
    ensures Orderly(Step(c, Save(i, at, draw)))
    ensures CanTransition(c.row.status, Step(c, Save(i, at, draw)).row.status)
  {
    assert WorkerCurrent(c, c.agents.workers[i]);
    var d := Step(c, Save(i, at, draw));
    forall k | 0 <= k < |d.agents.workers|
      ensures WorkerCurrent(d, d.agents.workers[k])
    {
      assert WorkerCurrent(c, c.agents.workers[k]);
    }
  }

  lemma StepOrderly(c: Cell, e: Event)
    requires Inv(c) && Orderly(c) && Enabled(c, e) && Patient(c, e)
    ensures Orderly(Step(c, e))
    ensures Allowed(c.row.status, Step(c, e).row.status)
    ensures c.row.status == Cancelled ==> Step(c, e).row == c.row
  {
    if Quiet(e) {
      QuietOrderly(c, e);
    } else if e.Save? {
      SaveOrderly(c, e.i, e.at, e.draw);
    } else if e.Return? {
      ReturnOrderly(c, e.i, e.outcome);
    } else {
      WorkerOrderly(c, e);
    }
  }

  lemma {:induction false} PatientRunKeeps(c: Cell, es: seq<Event>)
    requires Inv(c) && Orderly(c) && PatientRun(c, es)
    ensures Run(c, es) && Inv(After(c, es)) && Orderly(After(c, es))
    decreases |es|
  {
    if es != [] {
      StepKeeps(c, es[0]);
      StepOrderly(c, es[0]);
      PatientRunKeeps(Step(c, es[0]), es[1..]);
    }
  }

  /** Every stored status change of a patient run is one the status machine allows. */
  lemma {:induction false} OnlyAllowedChanges(c: Cell, es: seq<Event>, k: nat)
    requires Inv(c) && Orderly(c) && PatientRun(c, es) && k < |es|
    ensures Run(c, es) && Allowed(Statuses(c, es)[k], Statuses(c, es)[k + 1])
    decreases |es|
  {
    PatientRunIsRun(c, es);
    StepOrderly(c, es[0]);
    StepKeeps(c, es[0]);
    if k > 0 {
      OnlyAllowedChanges(Step(c, es[0]), es[1..], k - 1);
    }
  }

  /** SENT and CANCELLED rows never change again in a patient run. */
  lemma {:induction false} SentAndCancelledAbsorb(c: Cell, es: seq<Event>)
    requires Inv(c) && Orderly(c) && PatientRun(c, es)
    requires c.row.status == Sent || c.row.status == Cancelled
    ensures Run(c, es) && After(c, es).row == c.row
    decreases |es|
  {
    PatientRunIsRun(c, es);
    if es != [] {
      StepOrderly(c, es[0]);
      StepKeeps(c, es[0]);
      if c.row.status == Sent {
        FinalStep(c, es[0]);
      }
      SentAndCancelledAbsorb(Step(c, es[0]), es[1..]);
    }
  }

  /**
    From an untouched row: every status change is allowed, and the provider accepts the message at
    most once in the whole run, whatever crashes, duplicate messages and manual retries happen.
   */
  lemma PatientRunsAreSafe(c: Cell, es: seq<Event>)
    requires Initial(c) && PatientRun(c, es)
    ensures Run(c, es)
    ensures forall k :: 0 <= k < |es| ==> Allowed(Statuses(c, es)[k], Statuses(c, es)[k + 1])
    ensures |After(c, es).agents.history.delivered| <= 1
  {
    InitialInv(c);
    PatientRunKeeps(c, es);
    forall k | 0 <= k < |es|
      ensures Allowed(Statuses(c, es)[k], Statuses(c, es)[k + 1])
    {
      OnlyAllowedChanges(c, es, k);
    }
  }
}
