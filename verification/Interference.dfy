/** What a method may do to the system, and what everybody else may do in the meantime. */
module Interference {
  import opened Rows
  import opened Cells
  import opened Systems

  datatype Agent = WorkerAgent(k: Key, i: nat) | DispatcherAgent(k: Key, j: nat) | Outsider

  predicate IsWorkerEvent(e: Event, i: nat) {
    match e
    case Claim(n, _) => n == i
    case Refresh(n) => n == i
    case Insert(n) => n == i
    case Reject(n) => n == i
    case Call(n) => n == i
    case Return(n, _) => n == i
    case Record(n) => n == i
    case Save(n, _, _) => n == i
    case Fall(n) => n == i
    case Crash(n) => n == i
    case _ => false
  }

  predicate IsDispatcherEvent(e: Event, j: nat) {
    match e
    case Publish(n) => n == j
    case PublishFails(n, _) => n == j
    case MarkQueued(n) => n == j
    case Release(n) => n == j
    case Abandon(n) => n == j
    case _ => false
  }

  /** The move is made by this very worker or dispatcher. */
  predicate ActsAs(m: Move, me: Agent) {
    match me
    case WorkerAgent(k, i) =>
      (m.RowMove? && m.k == k && IsWorkerEvent(m.e, i)) || (m.Fallback? && m.k == k && m.i == i)
    case DispatcherAgent(k, j) => m.RowMove? && m.k == k && IsDispatcherEvent(m.e, j)
    case Outsider => false
  }

  // ---------------------------------------------------------------------------------------------
  // Leading from one state to another
  // ---------------------------------------------------------------------------------------------

  ghost predicate Closed(cfg: Config, states: iset<Sys>) {
    forall s, m :: s in states && MoveEnabled(cfg, s, m) ==> Next(cfg, s, m) in states
  }

  /** Some run goes from `s` to `t`: every set of states that contains `s` and is closed under moves contains `t`. */
  ghost predicate Leads(cfg: Config, s: Sys, t: Sys) {
    forall states: iset<Sys> :: s in states && Closed(cfg, states) ==> t in states
  }

  ghost predicate ClosedWithout(cfg: Config, states: iset<Sys>, me: Agent) {
    forall s, m :: s in states && MoveEnabled(cfg, s, m) && !ActsAs(m, me) ==> Next(cfg, s, m) in states
  }

  /** Some run in which `me` does not act goes from `s` to `t`. */
  ghost predicate LeadsWithout(cfg: Config, s: Sys, t: Sys, me: Agent) {
    forall states: iset<Sys> :: s in states && ClosedWithout(cfg, states, me) ==> t in states
  }

  /** The two are the ends of a sequence of moves. */
  ghost predicate HasRun(cfg: Config, s: Sys, t: Sys) {
    exists ms :: SysRun(cfg, s, ms) && SysAfter(cfg, s, ms) == t
  }

  lemma HasRunStep(cfg: Config, s: Sys, t: Sys, m: Move)
    requires HasRun(cfg, s, t) && MoveEnabled(cfg, t, m)
    ensures HasRun(cfg, s, Next(cfg, t, m))
  {
    var ms :| SysRun(cfg, s, ms) && SysAfter(cfg, s, ms) == t;
    OneMove(cfg, t, [m]);
    SysAppend(cfg, s, ms, [m]);
    assert SysRun(cfg, s, ms + [m]) && SysAfter(cfg, s, ms + [m]) == Next(cfg, t, m);
  }

  lemma {:induction false} RunStaysIn(cfg: Config, s: Sys, ms: seq<Move>, states: iset<Sys>)
    requires SysRun(cfg, s, ms) && s in states && Closed(cfg, states)
    ensures SysAfter(cfg, s, ms) in states
    decreases |ms|
  {
    if ms != [] {
      RunStaysIn(cfg, Next(cfg, s, ms[0]), ms[1..], states);
    }
  }

  lemma RunLeads(cfg: Config, s: Sys, ms: seq<Move>)
    requires SysRun(cfg, s, ms)
    ensures Leads(cfg, s, SysAfter(cfg, s, ms))
  {
    forall states: iset<Sys> | s in states && Closed(cfg, states)
      ensures SysAfter(cfg, s, ms) in states
    {
      RunStaysIn(cfg, s, ms, states);
    }
  }

  lemma RunExists(cfg: Config, s: Sys, t: Sys)
    requires Leads(cfg, s, t)
    ensures HasRun(cfg, s, t)
  {
    var reached := iset u: Sys | HasRun(cfg, s, u);
    assert SysRun(cfg, s, []) && SysAfter(cfg, s, []) == s;
    forall u, m | u in reached && MoveEnabled(cfg, u, m)
      ensures Next(cfg, u, m) in reached
    {
      HasRunStep(cfg, s, u, m);
    }
    assert t in reached;
  }

  /** Leading is being the two ends of some sequence of moves. */
  lemma LeadsExactly(cfg: Config, s: Sys, t: Sys)
    ensures Leads(cfg, s, t) <==> HasRun(cfg, s, t)
  {
    if Leads(cfg, s, t) {
      RunExists(cfg, s, t);
    } else if ms :| SysRun(cfg, s, ms) && SysAfter(cfg, s, ms) == t {
      RunLeads(cfg, s, ms);
    }
  }

  lemma LeadsNowhere(cfg: Config, s: Sys, me: Agent)
    ensures Leads(cfg, s, s) && LeadsWithout(cfg, s, s, me)
  {
  }

  lemma LeadsTrans(cfg: Config, s: Sys, t: Sys, u: Sys)
    requires Leads(cfg, s, t) && Leads(cfg, t, u)
    ensures Leads(cfg, s, u)
  {
  }

  lemma LeadsStep(cfg: Config, s: Sys, t: Sys, m: Move)
    requires Leads(cfg, s, t) && MoveEnabled(cfg, t, m)
    ensures Leads(cfg, s, Next(cfg, t, m))
  {
  }

  lemma LeadsOthers(cfg: Config, s: Sys, t: Sys, u: Sys, me: Agent)
    requires Leads(cfg, s, t) && LeadsWithout(cfg, t, u, me)
    ensures Leads(cfg, s, u)
  {
    forall states: iset<Sys> | s in states && Closed(cfg, states)
      ensures u in states
    {
      assert ClosedWithout(cfg, states, me);
    }
  }

  /** A statement, then everybody else, then another statement. */
  lemma LeadsAround(cfg: Config, s: Sys, t: Sys, u: Sys, v: Sys, me: Agent)
    requires Leads(cfg, s, t) && LeadsWithout(cfg, t, u, me) && Leads(cfg, u, v)
    ensures Leads(cfg, s, v)
  {
    LeadsOthers(cfg, s, t, u, me);
    LeadsTrans(cfg, s, u, v);
  }

  /** Whatever a method proves to be a run keeps every row reachable and every row well-born. */
  lemma LeadsKeepsSound(cfg: Config, s: Sys, t: Sys)
    requires Sound(cfg, s) && Leads(cfg, s, t)
    ensures Sound(cfg, t)
  {
    LeadsExactly(cfg, s, t);
    var ms :| SysRun(cfg, s, ms) && SysAfter(cfg, s, ms) == t;
    AllReachableRun(cfg, s, ms);
    WellBornRun(cfg, s, ms);
  }

  // ---------------------------------------------------------------------------------------------
  // What others leave alone
  // ---------------------------------------------------------------------------------------------

  /**
    What nobody else can change about a worker: its position, its copy of the row, and what is immutable in the
    row.
   */
  predicate SameWorker(c: Cell, d: Cell, i: nat) {
    i < |c.agents.workers| ==>
      && i < |d.agents.workers| && d.agents.workers[i] == c.agents.workers[i]
      && d.row.notice == c.row.notice && d.row.maxAttempts == c.row.maxAttempts && d.policy == c.policy
  }

  predicate SameDispatcher(c: Cell, d: Cell, j: nat) {
    j < |c.agents.dispatchers| ==>
      j < |d.agents.dispatchers| && d.agents.dispatchers[j] == c.agents.dispatchers[j]
  }

  predicate SameForMe(s: Sys, t: Sys, me: Agent) {
    match me
    case WorkerAgent(k, i) => k in s.cells ==> k in t.cells && SameWorker(s.cells[k], t.cells[k], i)
    case DispatcherAgent(k, j) => k in s.cells ==> k in t.cells && SameDispatcher(s.cells[k], t.cells[k], j)
    case Outsider => s.cells.Keys <= t.cells.Keys
  }

  lemma StepSameWorker(c: Cell, e: Event, i: nat)
    requires Enabled(c, e) && !IsWorkerEvent(e, i)
    ensures SameWorker(c, Step(c, e), i)
  {
    StepFrame(c, e);
  }

  lemma StepSameDispatcher(c: Cell, e: Event, j: nat)
    requires Enabled(c, e) && !IsDispatcherEvent(e, j)
    ensures SameDispatcher(c, Step(c, e), j)
  {
  }

  lemma EachSameAgents(s: Sys, e: Event, me: Agent)
    requires e.RecoverDispatching? || e.RecoverProcessing?
    ensures SameForMe(s, EachRow(s, e), me)
  {
  }

  lemma RowSameAgents(s: Sys, k: Key, e: Event, me: Agent)
    requires k in s.cells && Enabled(s.cells[k], e) && !ActsAs(RowMove(k, e), me)
    ensures SameForMe(s, s.(cells := s.cells[k := Step(s.cells[k], e)]), me)
  {
    if me.WorkerAgent? && me.k == k {
      StepSameWorker(s.cells[k], e, me.i);
    } else if me.DispatcherAgent? && me.k == k {
      StepSameDispatcher(s.cells[k], e, me.j);
    }
  }

  lemma StepSameForMe(cfg: Config, s: Sys, m: Move, me: Agent)
    requires MoveEnabled(cfg, s, m) && !ActsAs(m, me)
    ensures SameForMe(s, Next(cfg, s, m), me)
  {
    match m
    case RowMove(k, e) => RowSameAgents(s, k, e, me);
    case Fallback(k, i, _, _, _) => RowSameAgents(s, k, Fall(i), me);
    case Emit(_, _, _, _, _) =>
    case RecoverAllDispatching(at, timeout) => EachSameAgents(s, RecoverDispatching(at, timeout), me);
    case RecoverAllProcessing(at, timeout) => EachSameAgents(s, RecoverProcessing(at, timeout), me);
  }

  lemma OthersLeaveMeAlone(cfg: Config, s: Sys, t: Sys, me: Agent)
    requires LeadsWithout(cfg, s, t, me)
    ensures SameForMe(s, t, me)
  {
    var states := iset u: Sys | SameForMe(s, u, me);
    forall u, m | u in states && MoveEnabled(cfg, u, m) && !ActsAs(m, me)
      ensures Next(cfg, u, m) in states
    {
      StepSameForMe(cfg, u, m, me);
    }
    assert t in states;
  }
}
