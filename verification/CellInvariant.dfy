/** What every event keeps, however workers, dispatchers, recovery and the API interleave. */
module CellInvariant {
  import opened Enums
  import opened Rows
  import opened Backoff
  import opened Cells

  /** The attempt numbers are 1..Top, and Top is `attempts` or one more. */
  function Top(c: Cell): nat {
    if c.row.attempts + 1 in c.log then c.row.attempts + 1 else c.row.attempts
  }

  ghost predicate LogIsPrefix(c: Cell) {
    forall n :: n in c.log <==> 1 <= n <= Top(c)
  }

  /** Loaded the row after claiming it, and may still write. */
  predicate Loaded(w: Worker) {
    w.pc.Refreshed? || Holds(w)
  }

  /** The mark stored for the attempt a holder owns. */
  function OwnMark(pc: Pc): Mark {
    if pc.Recorded? then MarkFor(pc.outcome) else InProgress
  }

  /** Whether the owned attempt has been accepted by the provider. */
  predicate HasDelivered(pc: Pc) {
    (pc.Returned? || pc.Recorded?) && pc.outcome == Accepted
  }

  ghost predicate WorkerOk(c: Cell, w: Worker) {
    var h := c.agents.history;
    && (Loaded(w) ==> w.seen.attempts <= c.row.attempts && w.seen.maxAttempts == c.row.maxAttempts)
    && (w.pc.Refreshed? && Final(c.row.status) ==> Number(w) in c.log || w.seen.status == c.row.status)
    && (Holds(w) ==>
        && w.seen.attempts == c.row.attempts
        && Number(w) in c.log
        && c.log[Number(w)] == OwnMark(w.pc)
        && (Final(c.row.status) ==> w.seen.status == c.row.status)
        && (w.pc.Holding? ==> Number(w) !in h.calls)
        && (HasDelivered(w.pc) <==> Number(w) in h.delivered))
  }

  ghost predicate WorkersOk(c: Cell) {
    forall i :: 0 <= i < |c.agents.workers| ==> WorkerOk(c, c.agents.workers[i])
  }

  /** At most one worker holds an attempt that `attempts` does not count yet. */
  ghost predicate OneHolder(c: Cell) {
    forall i, j :: 0 <= i < j < |c.agents.workers| ==> !(Holds(c.agents.workers[i]) && Holds(c.agents.workers[j]))
  }

  /** Counted attempts all failed, except that the last one succeeded exactly when the row is sent. */
  ghost predicate Audit(c: Cell) {
    && (c.row.status == Sent ==> c.row.attempts >= 1 && c.row.attempts in c.agents.history.delivered)
    && forall n :: 1 <= n <= c.row.attempts && n in c.log ==>
         c.log[n] == (if n == c.row.attempts && c.row.status == Sent then Succeeded else Unsuccessful)
  }

  function AttemptBudget(c: Cell): nat {
    (if c.row.maxAttempts >= 1 then c.row.maxAttempts else 1) + c.agents.history.manualRetries
  }

  predicate WithinBudget(c: Cell) {
    if Final(c.row.status) then c.row.attempts <= AttemptBudget(c) else c.row.attempts < AttemptBudget(c)
  }

  predicate Stamped(c: Cell) {
    && (c.row.status == Dispatching ==> c.row.dispatchingAt.Some?)
    && (c.row.status == Processing ==> c.row.processingAt.Some?)
  }

  ghost predicate Distinct(s: seq<nat>) {
    forall i, j :: 0 <= i < j < |s| ==> s[i] != s[j]
  }

  /** Each attempt number is sent at most once, and only the last two can have been delivered. */
  ghost predicate CallsOk(c: Cell) {
    var h := c.agents.history;
    && Distinct(h.calls)
    && Distinct(h.delivered)
    && (forall n :: n in h.calls ==> n in c.log)
    && (forall n :: n in h.delivered ==>
          n in c.log && (n == c.row.attempts + 1 || (n == c.row.attempts && c.row.status == Sent)))
  }

  /** How many backoff delays can have been stored. */
  function Waits(c: Cell): nat {
    if c.row.attempts < c.row.maxAttempts then c.row.attempts
    else if c.row.maxAttempts >= 1 then c.row.maxAttempts - 1 else 0
  }

  predicate WaitOk(c: Cell) {
    c.agents.history.waited <= WaitBound(c.policy, Waits(c))
  }

  ghost predicate Inv(c: Cell) {
    && LogIsPrefix(c)
    && WorkersOk(c)
    && OneHolder(c)
    && Audit(c)
    && WithinBudget(c)
    && Stamped(c)
    && CallsOk(c)
    && WaitOk(c)
  }

  lemma InitialInv(c: Cell)
    requires Initial(c)
    ensures Inv(c)
  {
  }

  /** Events that leave the attempt log, the counters and every worker as they are. */
  predicate Quiet(e: Event) {
    e.Deliver? || e.Duplicate? || e.Lose? || e.Dispatch? || e.Publish? || e.PublishFails? || e.MarkQueued?
    || e.Release? || e.Abandon? || e.RecoverDispatching? || e.RecoverProcessing? || e.ManualRetry? || e.Cancel?
  }

  /** What a quiet event can do: a status change outside the final ones, or a manual retry. */
  ghost predicate QuietChange(c: Cell, d: Cell) {
    var g, h := c.agents.history, d.agents.history;
    && d.log == c.log && d.policy == c.policy
    && d.row.attempts == c.row.attempts && d.row.maxAttempts == c.row.maxAttempts
    && h.calls == g.calls && h.delivered == g.delivered && h.waited == g.waited
    && g.manualRetries <= h.manualRetries
    && (Final(d.row.status) || c.row.status == Sent ==> d.row.status == c.row.status)
    && (Final(c.row.status) && !Final(d.row.status) ==> g.manualRetries < h.manualRetries)
    && Stamped(d)
    && (d.agents.workers == c.agents.workers
        || d.agents.workers == c.agents.workers + [Worker(Read, c.row)])
  }

  lemma QuietIsQuiet(c: Cell, e: Event)
    requires Stamped(c) && Enabled(c, e) && Quiet(e)
    ensures QuietChange(c, Step(c, e))
  {
  }

  lemma QuietWorkers(c: Cell, d: Cell)
    requires WorkersOk(c) && OneHolder(c) && QuietChange(c, d)
    ensures WorkersOk(d) && OneHolder(d)
  {
    forall i | 0 <= i < |d.agents.workers|
      ensures WorkerOk(d, d.agents.workers[i])
    {
      if i < |c.agents.workers| {
        assert WorkerOk(c, c.agents.workers[i]);
        assert d.agents.workers[i] == c.agents.workers[i];
      }
    }
  }

  lemma QuietKeeps(c: Cell, e: Event)
    requires Inv(c) && Enabled(c, e) && Quiet(e)
    ensures Inv(Step(c, e))
  {
    QuietIsQuiet(c, e);
    QuietWorkers(c, Step(c, e));
  }

  lemma ClaimKeeps(c: Cell, i: nat, at: Time)
    requires Inv(c) && WorkerAt(c, i) && PcOf(c, i).Read?
    ensures Inv(ClaimStep(c, i, at))
  {
    var d := ClaimStep(c, i, at);
    assert WorkerOk(c, c.agents.workers[i]);
    forall k | 0 <= k < |d.agents.workers|
      ensures WorkerOk(d, d.agents.workers[k])
    {
      assert WorkerOk(c, c.agents.workers[k]);
    }
  }

  lemma RefreshKeeps(c: Cell, i: nat)
    requires Inv(c) && WorkerAt(c, i) && PcOf(c, i).Claimed?
    ensures Inv(SetWorker(c, i, Worker(Refreshed, c.row)))
  {
    var d := SetWorker(c, i, Worker(Refreshed, c.row));
    assert WorkerOk(c, c.agents.workers[i]);
    forall k | 0 <= k < |d.agents.workers|
      ensures WorkerOk(d, d.agents.workers[k])
    {
      assert WorkerOk(c, c.agents.workers[k]);
    }
  }

  /** A worker that gives up changes nothing but its own position. */
  lemma GoneKeeps(c: Cell, i: nat)
    requires Inv(c) && WorkerAt(c, i)
    ensures Inv(MoveTo(c, i, Gone))
  {
    var d := MoveTo(c, i, Gone);
    forall k | 0 <= k < |d.agents.workers|
      ensures WorkerOk(d, d.agents.workers[k])
    {
      assert WorkerOk(c, c.agents.workers[k]);
    }
  }

  lemma InsertedOk(c: Cell, i: nat)
    requires Inv(c) && WorkerAt(c, i) && PcOf(c, i).Refreshed? && Number(c.agents.workers[i]) !in c.log
    ensures c.agents.workers[i].seen.attempts == c.row.attempts
    ensures Number(c.agents.workers[i]) == Top(c) + 1 == c.row.attempts + 1
    ensures Number(c.agents.workers[i]) !in c.agents.history.calls
    ensures Number(c.agents.workers[i]) !in c.agents.history.delivered
    ensures forall k :: 0 <= k < |c.agents.workers| ==> !Holds(c.agents.workers[k])
  {
    assert WorkerOk(c, c.agents.workers[i]);
    forall k | 0 <= k < |c.agents.workers|
      ensures !Holds(c.agents.workers[k])
    {
      assert WorkerOk(c, c.agents.workers[k]);
    }
  }

  lemma InsertKeeps(c: Cell, i: nat)
    requires Inv(c) && WorkerAt(c, i) && PcOf(c, i).Refreshed?
    ensures Inv(InsertStep(c, i))
  {
    if Number(c.agents.workers[i]) in c.log {
      GoneKeeps(c, i);
    } else {
      InsertedOk(c, i);
      var d := InsertStep(c, i);
      assert LogIsPrefix(d);
      forall k | 0 <= k < |d.agents.workers|
        ensures WorkerOk(d, d.agents.workers[k])
      {
        assert WorkerOk(c, c.agents.workers[k]);
      }
    }
  }

  lemma CallKeeps(c: Cell, i: nat)
    requires Inv(c) && WorkerAt(c, i) && PcOf(c, i).Holding?
    ensures Inv(CallStep(c, i))
  {
    var d := CallStep(c, i);
    assert WorkerOk(c, c.agents.workers[i]);
    forall k | 0 <= k < |d.agents.workers|
      ensures WorkerOk(d, d.agents.workers[k])
    {
      assert WorkerOk(c, c.agents.workers[k]);
    }
  }

  lemma ReturnWorkersOk(c: Cell, i: nat, o: Outcome)
    requires WorkersOk(c) && OneHolder(c) && WorkerAt(c, i) && PcOf(c, i).Calling? && o != Rejected
    ensures WorkersOk(ReturnStep(c, i, o)) && OneHolder(ReturnStep(c, i, o))
  {
    var d := ReturnStep(c, i, o);
    assert WorkerOk(c, c.agents.workers[i]);
    forall k | 0 <= k < |d.agents.workers|
      ensures WorkerOk(d, d.agents.workers[k])
    {
      assert WorkerOk(c, c.agents.workers[k]);
    }
  }

  lemma ReturnKeeps(c: Cell, i: nat, o: Outcome)
    requires Inv(c) && WorkerAt(c, i) && PcOf(c, i).Calling? && o != Rejected
    ensures Inv(ReturnStep(c, i, o))
  {
    ReturnWorkersOk(c, i, o);
    assert WorkerOk(c, c.agents.workers[i]);
  }

  lemma RecordKeeps(c: Cell, i: nat)
    requires Inv(c) && WorkerAt(c, i) && PcOf(c, i).Returned?
    ensures Inv(RecordStep(c, i))
  {
    var d := RecordStep(c, i);
    assert WorkerOk(c, c.agents.workers[i]);
    forall k | 0 <= k < |d.agents.workers|
      ensures WorkerOk(d, d.agents.workers[k])
    {
      assert WorkerOk(c, c.agents.workers[k]);
    }
  }

  lemma RejectKeeps(c: Cell, i: nat)
    requires Inv(c) && WorkerAt(c, i) && PcOf(c, i).Holding?
    ensures Inv(MoveTo(c, i, Returned(Rejected)))
  {
    var d := MoveTo(c, i, Returned(Rejected));
    assert WorkerOk(c, c.agents.workers[i]);
    forall k | 0 <= k < |d.agents.workers|
      ensures WorkerOk(d, d.agents.workers[k])
    {
      assert WorkerOk(c, c.agents.workers[k]);
    }
  }

  /** A save that the in-memory status allows finds the row in no final status. */
  lemma SaverFacts(c: Cell, i: nat)
    requires Inv(c) && WorkerAt(c, i) && PcOf(c, i).Recorded?
    requires CanTransition(c.agents.workers[i].seen.status,
                           Target(PcOf(c, i).outcome, Number(c.agents.workers[i]),
                               c.agents.workers[i].seen.maxAttempts))
    ensures var w := c.agents.workers[i];
      && !Final(c.row.status)
      && w.seen.attempts == c.row.attempts && w.seen.maxAttempts == c.row.maxAttempts
      && Number(w) == Top(c) == c.row.attempts + 1
      && c.log[Number(w)] == MarkFor(w.pc.outcome)
      && (w.pc.outcome == Accepted <==> Number(w) in c.agents.history.delivered)
      && (forall n :: n in c.agents.history.delivered ==> n == Number(w))
      && (forall k :: 0 <= k < |c.agents.workers| && k != i ==> !Holds(c.agents.workers[k]))
  {
    assert WorkerOk(c, c.agents.workers[i]);
  }

  lemma SavedWorkers(c: Cell, i: nat, at: Time, draw: real)
    requires Inv(c) && WorkerAt(c, i) && PcOf(c, i).Recorded? && Draw(draw)
    requires CanTransition(c.agents.workers[i].seen.status,
                           Target(PcOf(c, i).outcome, Number(c.agents.workers[i]),
                               c.agents.workers[i].seen.maxAttempts))
    ensures WorkersOk(SaveStep(c, i, at, draw)) && OneHolder(SaveStep(c, i, at, draw))
  {
    SaverFacts(c, i);
    var d := SaveStep(c, i, at, draw);
    forall k | 0 <= k < |d.agents.workers|
      ensures WorkerOk(d, d.agents.workers[k])
    {
      assert WorkerOk(c, c.agents.workers[k]);
    }
  }

  lemma SavedWait(c: Cell, i: nat, at: Time, draw: real)
    requires Inv(c) && WorkerAt(c, i) && PcOf(c, i).Recorded? && Draw(draw)
    requires CanTransition(c.agents.workers[i].seen.status,
                           Target(PcOf(c, i).outcome, Number(c.agents.workers[i]),
                               c.agents.workers[i].seen.maxAttempts))
    ensures WaitOk(SaveStep(c, i, at, draw))
  {
    SaverFacts(c, i);
    var d := SaveStep(c, i, at, draw);
    if d.row.status == Retry {
      DelayBounds(c.policy, d.row.attempts, draw);
    } else {
      WaitBoundGrows(c.policy, Waits(c), Waits(d));
    }
  }

  lemma SaveKeeps(c: Cell, i: nat, at: Time, draw: real)
    requires Inv(c) && WorkerAt(c, i) && PcOf(c, i).Recorded? && Draw(draw)
    ensures Inv(SaveStep(c, i, at, draw))
  {
    var w := c.agents.workers[i];
    if CanTransition(w.seen.status, Target(w.pc.outcome, Number(w), w.seen.maxAttempts)) {
      SaverFacts(c, i);
      SavedWorkers(c, i, at, draw);
      SavedWait(c, i, at, draw);
    } else {
      GoneKeeps(c, i);
    }
  }

  lemma StepKeeps(c: Cell, e: Event)
    requires Inv(c) && Enabled(c, e)
    ensures Inv(Step(c, e))
  {
    match e
    case Claim(i, at) => ClaimKeeps(c, i, at);
    case Refresh(i) => RefreshKeeps(c, i);
    case Insert(i) => InsertKeeps(c, i);
    case Call(i) => CallKeeps(c, i);
    case Return(i, o) => ReturnKeeps(c, i, o);
    case Record(i) => RecordKeeps(c, i);
    case Save(i, at, draw) => SaveKeeps(c, i, at, draw);
    case Reject(i) => RejectKeeps(c, i);
    case Fall(i) => GoneKeeps(c, i);
    case Crash(i) => GoneKeeps(c, i);
    case _ => QuietKeeps(c, e);
  }
}
