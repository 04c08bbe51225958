/**
  What holds along every run of the whole system, and so along whatever an imperative method does:
  each row's share of a run is a run of that row alone.
 */
module SystemRuns {
  import opened Enums
  import opened Rows
  import opened Cells
  import opened CellInvariant
  import opened CellRuns
  import opened PatientRecovery
  import opened Recoverability
  import opened Redelivery
  import opened Systems
  import opened Unaided
  import opened Interference

  // ---------------------------------------------------------------------------------------------
  // A row's share of a run
  // ---------------------------------------------------------------------------------------------

  /** The event of row `k` that a move is, if any. */
  function EventsOf(m: Move, k: Key): seq<Event> {
    match m
    case RowMove(q, e) => if q == k then [e] else []
    case Fallback(q, i, _, _, _) => if q == k then [Fall(i)] else []
    case Emit(_, _, _, _, _) => []
    case RecoverAllDispatching(at, timeout) => [RecoverDispatching(at, timeout)]
    case RecoverAllProcessing(at, timeout) => [RecoverProcessing(at, timeout)]
  }

  function Share(ms: seq<Move>, k: Key): seq<Event> {
    if ms == [] then [] else EventsOf(ms[0], k) + Share(ms[1..], k)
  }

  lemma MoveProjects(cfg: Config, s: Sys, m: Move, k: Key)
    requires MoveEnabled(cfg, s, m) && k in s.cells
    ensures k in Next(cfg, s, m).cells
    ensures var es := EventsOf(m, k);
      && (es == [] ==> Next(cfg, s, m).cells[k] == s.cells[k])
      && (es != [] ==>
          es == [es[0]] && Enabled(s.cells[k], es[0]) && Next(cfg, s, m).cells[k] == Step(s.cells[k], es[0]))
      && (es != [] && cfg.patient ==> Patient(s.cells[k], es[0]))
  {
  }

  lemma {:induction false} ShareHas(ms: seq<Move>, k: Key)
    ensures ManualRetry in Share(ms, k) ==> RowMove(k, ManualRetry) in ms
    decreases |ms|
  {
    if ms != [] {
      ShareHas(ms[1..], k);
      assert ms == [ms[0]] + ms[1..];
    }
  }

  /** Every row's share of a system run is a run of that row, a patient one if the system is. */
  lemma {:induction false} RowsRunIndependently(cfg: Config, s: Sys, ms: seq<Move>, k: Key)
    requires SysRun(cfg, s, ms) && k in s.cells
    ensures k in SysAfter(cfg, s, ms).cells
    ensures Run(s.cells[k], Share(ms, k)) && After(s.cells[k], Share(ms, k)) == SysAfter(cfg, s, ms).cells[k]
    ensures cfg.patient ==> PatientRun(s.cells[k], Share(ms, k))
    ensures ManualRetry in Share(ms, k) ==> RowMove(k, ManualRetry) in ms
    decreases |ms|
  {
    ShareHas(ms, k);
    if ms != [] {
      MoveProjects(cfg, s, ms[0], k);
      RowsRunIndependently(cfg, Next(cfg, s, ms[0]), ms[1..], k);
      var es := EventsOf(ms[0], k);
      if es == [] {
        assert Share(ms, k) == Share(ms[1..], k);
      } else {
        assert Share(ms, k)[0] == es[0] && Share(ms, k)[1..] == Share(ms[1..], k);
      }
    }
  }

  // ---------------------------------------------------------------------------------------------
  // Along every run of the system
  // ---------------------------------------------------------------------------------------------

  lemma ReachableInv(c: Cell)
    requires Reachable(c)
    ensures Inv(c)
  {
    var c0, es :| Initial(c0) && Run(c0, es) && After(c0, es) == c;
    InitialInv(c0);
    RunKeeps(c0, es);
  }

  /** The row's share of the run that leads from one state to the other. */
  lemma LeadsProjects(cfg: Config, s: Sys, t: Sys, k: Key) returns (es: seq<Event>)
    requires Leads(cfg, s, t) && k in s.cells
    ensures k in t.cells && Run(s.cells[k], es) && After(s.cells[k], es) == t.cells[k]
    ensures cfg.patient ==> PatientRun(s.cells[k], es)
  {
    LeadsExactly(cfg, s, t);
    var ms :| SysRun(cfg, s, ms) && SysAfter(cfg, s, ms) == t;
    RowsRunIndependently(cfg, s, ms, k);
    es := Share(ms, k);
  }

  /** No run of the system removes a row, lowers its `attempts` or loses one of its attempt rows. */
  lemma RowsOnlyGrow(cfg: Config, s: Sys, t: Sys, k: Key)
    requires AllReachable(s) && Leads(cfg, s, t) && k in s.cells
    ensures k in t.cells
    ensures s.cells[k].row.attempts <= t.cells[k].row.attempts && s.cells[k].log.Keys <= t.cells[k].log.Keys
  {
    var es := LeadsProjects(cfg, s, t, k);
    ReachableInv(s.cells[k]);
    AttemptsNeverDecrease(s.cells[k], es);
  }

  /** Whatever anybody does, a row stored as SENT is the same row ever after. */
  lemma SentRowsStay(cfg: Config, s: Sys, t: Sys, k: Key)
    requires AllReachable(s) && Leads(cfg, s, t) && k in s.cells && s.cells[k].row.status == Sent
    ensures k in t.cells && t.cells[k].row == s.cells[k].row
  {
    var es := LeadsProjects(cfg, s, t, k);
    ReachableInv(s.cells[k]);
    SentIsForever(s.cells[k], es);
  }

  /** A FAILED row is changed by no run in which it is not retried by hand. */
  lemma FailedRowsNeedManualRetry(cfg: Config, s: Sys, ms: seq<Move>, k: Key)
    requires AllReachable(s) && SysRun(cfg, s, ms) && k in s.cells && s.cells[k].row.status == Failed
    ensures k in SysAfter(cfg, s, ms).cells
    ensures RowMove(k, ManualRetry) in ms || SysAfter(cfg, s, ms).cells[k].row == s.cells[k].row
  {
    RowsRunIndependently(cfg, s, ms, k);
    ReachableInv(s.cells[k]);
    FailedUntilManualRetry(s.cells[k], Share(ms, k));
  }

  /** The same for what a method does: the row is as it was, or its count of manual retries has grown. */
  lemma FailedRowsStay(cfg: Config, s: Sys, t: Sys, k: Key)
    requires AllReachable(s) && Leads(cfg, s, t) && k in s.cells && s.cells[k].row.status == Failed
    ensures k in t.cells
    ensures t.cells[k].row == s.cells[k].row
            || t.cells[k].agents.history.manualRetries > s.cells[k].agents.history.manualRetries
  {
    var es := LeadsProjects(cfg, s, t, k);
    ReachableInv(s.cells[k]);
    FailedUnlessRetried(s.cells[k], es);
  }

  /** A blocked row sees no further provider call, whatever anybody does. */
  lemma BlockedRowsStay(cfg: Config, s: Sys, t: Sys, k: Key)
    requires AllReachable(s) && Leads(cfg, s, t) && k in s.cells && Blocked(s.cells[k])
    ensures k in t.cells && t.cells[k].agents.history.calls == s.cells[k].agents.history.calls
    ensures t.cells[k].row.status == Sent ==> s.cells[k].row.status == Sent
  {
    var es := LeadsProjects(cfg, s, t, k);
    ReachableInv(s.cells[k]);
    Stranded(s.cells[k], es);
  }

  /** A message accepted before is accepted again by nobody, unless its row allows a second copy. */
  lemma SettledRowsStay(cfg: Config, s: Sys, t: Sys, k: Key)
    requires AllReachable(s) && Leads(cfg, s, t) && k in s.cells
    requires s.cells[k].agents.history.delivered != [] && !SecondCopyAhead(s.cells[k])
    ensures k in t.cells && t.cells[k].agents.history.delivered == s.cells[k].agents.history.delivered
  {
    var es := LeadsProjects(cfg, s, t, k);
    ReachableInv(s.cells[k]);
    SettledForever(s.cells[k], es);
  }

  /** A row the periodic tasks cannot continue from is not SENT after anything in which it is not retried by hand. */
  lemma LostRowsStay(cfg: Config, s: Sys, t: Sys, k: Key)
    requires AllReachable(s) && Leads(cfg, s, t) && k in s.cells && !CanBeSentUnaided(s.cells[k])
    ensures k in t.cells
    ensures t.cells[k].row.status != Sent
            || t.cells[k].agents.history.manualRetries > s.cells[k].agents.history.manualRetries
  {
    var es := LeadsProjects(cfg, s, t, k);
    RetriesNeverShrink(s.cells[k], es);
    if t.cells[k].agents.history.manualRetries == s.cells[k].agents.history.manualRetries {
      var fs := WithoutRefusedRetries(s.cells[k], es);
    }
  }

  // ---------------------------------------------------------------------------------------------
  // Along every patient run of the system
  // ---------------------------------------------------------------------------------------------

  /** Every row reachable and in order: in particular each message has been accepted at most once. */
  ghost predicate AllOrderly(s: Sys) {
    AllReachable(s) && forall k :: k in s.cells ==> Orderly(s.cells[k])
  }

  /** From one state to the next, every stored status change is one the status machine allows. */
  predicate AllowedMove(s: Sys, t: Sys) {
    forall k :: k in s.cells && k in t.cells ==> Allowed(s.cells[k].row.status, t.cells[k].row.status)
  }

  predicate AllAllowed(cfg: Config, s: Sys, ms: seq<Move>)
    requires SysRun(cfg, s, ms)
    decreases |ms|
  {
    ms != [] ==> AllowedMove(s, Next(cfg, s, ms[0])) && AllAllowed(cfg, Next(cfg, s, ms[0]), ms[1..])
  }

  lemma InsertedIsNew(cfg: Config, s: Sys, m: Move, k: Key)
    requires MoveEnabled(cfg, s, m) && k in Next(cfg, s, m).cells && k !in s.cells
    ensures Next(cfg, s, m).cells[k].agents.workers == [] && Next(cfg, s, m).cells[k].agents.history.delivered == []
  {
  }

  lemma MoveOrderly(cfg: Config, s: Sys, m: Move)
    requires cfg.patient && AllOrderly(s) && MoveEnabled(cfg, s, m)
    ensures AllOrderly(Next(cfg, s, m)) && AllowedMove(s, Next(cfg, s, m))
  {
    var t := Next(cfg, s, m);
    AllReachableStep(cfg, s, m);
    forall k | k in t.cells
      ensures Orderly(t.cells[k])
      ensures k in s.cells ==> Allowed(s.cells[k].row.status, t.cells[k].row.status)
    {
      if k in s.cells {
        MoveProjects(cfg, s, m, k);
        ReachableInv(s.cells[k]);
        if EventsOf(m, k) != [] {
          StepOrderly(s.cells[k], EventsOf(m, k)[0]);
        }
      } else {
        InsertedIsNew(cfg, s, m, k);
      }
    }
  }

  lemma {:induction false} RunOrderly(cfg: Config, s: Sys, ms: seq<Move>)
    requires cfg.patient && AllOrderly(s) && SysRun(cfg, s, ms)
    ensures AllOrderly(SysAfter(cfg, s, ms)) && AllAllowed(cfg, s, ms)
    decreases |ms|
  {
    if ms != [] {
      MoveOrderly(cfg, s, ms[0]);
      RunOrderly(cfg, Next(cfg, s, ms[0]), ms[1..]);
    }
  }

  /**
    If recovery never releases a row under a live worker, then in every run of the whole system every
    status change of every row is allowed, and every message is accepted by the provider at most once.
   */
  lemma PatientSystemsAreSafe(cfg: Config, ms: seq<Move>)
    requires cfg.patient && SysRun(cfg, EMPTY, ms)
    ensures AllAllowed(cfg, EMPTY, ms)
    ensures forall k :: k in SysAfter(cfg, EMPTY, ms).cells ==>
              |SysAfter(cfg, EMPTY, ms).cells[k].agents.history.delivered| <= 1
  {
    RunOrderly(cfg, EMPTY, ms);
  }

  /** The same for whatever a method does, and SENT and CANCELLED rows stay as they are. */
  lemma LeadsStaysOrderly(cfg: Config, s: Sys, t: Sys)
    requires cfg.patient && AllOrderly(s) && Leads(cfg, s, t)
    ensures AllOrderly(t)
    ensures forall k :: k in t.cells ==> |t.cells[k].agents.history.delivered| <= 1
    ensures forall k :: k in s.cells && (s.cells[k].row.status == Sent || s.cells[k].row.status == Cancelled) ==>
              k in t.cells && t.cells[k].row == s.cells[k].row
  {
    LeadsExactly(cfg, s, t);
    var ms :| SysRun(cfg, s, ms) && SysAfter(cfg, s, ms) == t;
    RunOrderly(cfg, s, ms);
    forall k | k in s.cells && (s.cells[k].row.status == Sent || s.cells[k].row.status == Cancelled)
      ensures k in t.cells && t.cells[k].row == s.cells[k].row
    {
      RowsRunIndependently(cfg, s, ms, k);
      ReachableInv(s.cells[k]);
      SentAndCancelledAbsorb(s.cells[k], Share(ms, k));
    }
  }
}
