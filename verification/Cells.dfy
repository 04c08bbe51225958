/**
  Everything that happens to one outbox row, as a state machine.

  A cell holds the stored row, its attempt rows, the messages the broker still has for it, and the
  position of every worker and dispatcher that ever touched it. Each event is one database
  statement, one call to the broker or the provider, or one crash; events of different agents
  interleave in any order. Clock readings are arbitrary: no claim below needs synchronised clocks.
 */
module Cells {
  import opened Wrappers
  import opened Enums
  import opened Rows
  import Backoff

  /** How a worker's single delivery attempt ended. */
  datatype Outcome =
    | Accepted   // provider.send returned
    | Temporary  // it raised, and the exception is classified "retry"
    | Permanent  // it raised, and the exception is classified "failed"
    | Rejected   // invalid recipient or no provider: send was never called

  /** Where a worker stands in `process_notification`. */
  datatype Pc =
    | Read
    | Claimed
    | Refreshed
    | Holding
    | Calling
    | Returned(outcome: Outcome)
    | Recorded(outcome: Outcome)
    | Falling
    | Gone

  /** `seen` is the worker's in-memory copy of the row, as last loaded from the database. */
  datatype Worker = Worker(pc: Pc, seen: Row)

  /** Where a dispatcher stands in `try_dispatch`. */
  datatype Dispatcher = Won | Enqueued | NotEnqueued | Left

  datatype History = History(
    calls: seq<nat>,      // attempt numbers for which provider.send was called, in call order
    delivered: seq<nat>,  // attempt numbers for which provider.send returned normally
    manualRetries: nat,
    waited: real)         // the sum of all backoff delays stored so far

  datatype Agents = Agents(workers: seq<Worker>, dispatchers: seq<Dispatcher>, history: History)

  datatype Cell = Cell(row: Row, log: Log, messages: nat, agents: Agents, policy: Backoff.Policy)

  datatype Event =
    | Deliver
    | Duplicate
    | Lose
    | Claim(i: nat, at: Time)
    | Refresh(i: nat)
    | Insert(i: nat)
    | Reject(i: nat)
    | Call(i: nat)
    | Return(i: nat, outcome: Outcome)
    | Record(i: nat)
    | Save(i: nat, at: Time, draw: real)
    | Fall(i: nat)
    | Crash(i: nat)
    | Dispatch(at: Time)
    | Publish(j: nat)
    | PublishFails(j: nat, reached: bool)
    | MarkQueued(j: nat)
    | Release(j: nat)
    | Abandon(j: nat)
    | RecoverDispatching(at: Time, timeout: Time)
    | RecoverProcessing(at: Time, timeout: Time)
    | ManualRetry
    | Cancel

  function NewCell(row: Row, policy: Backoff.Policy): Cell {
    Cell(row, map[], 0, Agents([], [], History([], [], 0, 0.0)), policy)
  }

  ghost predicate Initial(c: Cell) {
    exists notice, scheduledAt, maxAttempts, policy ::
      c == NewCell(NewRow(notice, scheduledAt, maxAttempts), policy)
  }

  /** The attempt number a worker uses: one more than the attempts it saw. */
  function Number(w: Worker): nat {
    w.seen.attempts + 1
  }

  /** Past the claim and not finished with the row. */
  predicate InFlight(w: Worker) {
    w.pc.Claimed? || w.pc.Refreshed? || Holds(w)
  }

  /** Owns an attempt row that it has not yet written back into the outbox row. */
  predicate Holds(w: Worker) {
    w.pc.Holding? || w.pc.Calling? || w.pc.Returned? || w.pc.Recorded?
  }

  function SetWorker(c: Cell, i: nat, w: Worker): Cell
    requires i < |c.agents.workers|
  {
    c.(agents := c.agents.(workers := c.agents.workers[i := w]))
  }

  function MoveTo(c: Cell, i: nat, pc: Pc): Cell
    requires i < |c.agents.workers|
  {
    SetWorker(c, i, c.agents.workers[i].(pc := pc))
  }

  function SetDispatcher(c: Cell, j: nat, d: Dispatcher): Cell
    requires j < |c.agents.dispatchers|
  {
    c.(agents := c.agents.(dispatchers := c.agents.dispatchers[j := d]))
  }

  predicate WorkerAt(c: Cell, i: nat) {
    i < |c.agents.workers|
  }

  predicate DispatcherAt(c: Cell, j: nat, d: Dispatcher) {
    j < |c.agents.dispatchers| && c.agents.dispatchers[j] == d
  }

  function PcOf(c: Cell, i: nat): Pc
    requires WorkerAt(c, i)
  {
    c.agents.workers[i].pc
  }

  predicate Expired(stamp: Option<Time>, at: Time, timeout: Time) {
    stamp.Some? && stamp.value <= at - timeout
  }

  function MarkFor(o: Outcome): Mark {
    if o == Accepted then Succeeded else Unsuccessful
  }

  /** The status the worker tries to store after an attempt that ended with `o`. */
  function Target(o: Outcome, number: nat, maxAttempts: nat): Status {
    match o
    case Accepted => Sent
    case Temporary => if number < maxAttempts then Retry else Failed
    case Permanent => Failed
    case Rejected => Failed
  }

  /** The row as the worker's final save leaves it: an overwrite, whatever is stored by then. */
  function SavedRow(row: Row, w: Worker, o: Outcome, at: Time, wait: real): Row {
    var target := Target(o, Number(w), w.seen.maxAttempts);
    row.(
      status := target,
      attempts := if o == Rejected then w.seen.attempts else Number(w),
      nextRetryAt := if target == Retry then Some(at + wait) else row.nextRetryAt)
  }

  /** When an event can happen. */
  predicate Enabled(c: Cell, e: Event) {
    match e
    case Deliver => c.messages > 0
    case Duplicate => c.messages > 0
    case Lose => c.messages > 0
    case Claim(i, _) => WorkerAt(c, i) && PcOf(c, i).Read?
    case Refresh(i) => WorkerAt(c, i) && PcOf(c, i).Claimed?
    case Insert(i) => WorkerAt(c, i) && PcOf(c, i).Refreshed?
    case Reject(i) => WorkerAt(c, i) && PcOf(c, i).Holding?
    case Call(i) => WorkerAt(c, i) && PcOf(c, i).Holding?
    case Return(i, o) => WorkerAt(c, i) && PcOf(c, i).Calling? && o != Rejected
    case Record(i) => WorkerAt(c, i) && PcOf(c, i).Returned?
    case Save(i, _, draw) => WorkerAt(c, i) && PcOf(c, i).Recorded? && Backoff.Draw(draw)
    case Fall(i) => WorkerAt(c, i) && PcOf(c, i).Falling?
    case Crash(i) => WorkerAt(c, i) && !PcOf(c, i).Gone?
    case Dispatch(_) => true
    case Publish(j) => DispatcherAt(c, j, Won)
    case PublishFails(j, _) => DispatcherAt(c, j, Won)
    case MarkQueued(j) => DispatcherAt(c, j, Enqueued)
    case Release(j) => DispatcherAt(c, j, NotEnqueued)
    case Abandon(j) => j < |c.agents.dispatchers| && c.agents.dispatchers[j] != Left
    case RecoverDispatching(_, _) => true
    case RecoverProcessing(_, _) => true
    case ManualRetry => true
    case Cancel => true
  }

  /** The message is taken and the row is loaded; a sent or cancelled row needs no worker. */
  function DeliverStep(c: Cell): Cell
    requires c.messages > 0
  {
    var taken := c.(messages := c.messages - 1);
    if c.row.status == Sent || c.row.status == Cancelled then taken
    else taken.(agents := c.agents.(workers := c.agents.workers + [Worker(Read, c.row)]))
  }

  function ClaimedRow(row: Row, at: Time): Row {
    if Claimable(row.status) then row.(status := Processing, processingAt := Some(at)) else row
  }

  /** UPDATE ... WHERE status IN (queued, pending, retry); the loser leaves. */
  function ClaimStep(c: Cell, i: nat, at: Time): Cell
    requires WorkerAt(c, i)
  {
    if Claimable(c.row.status) then
      MoveTo(c, i, Claimed).(row := ClaimedRow(c.row, at))
    else
      MoveTo(c, i, Gone)
  }

  /** INSERT of attempt number seen + 1; a duplicate number violates the constraint and kills the worker. */
  function InsertStep(c: Cell, i: nat): Cell
    requires WorkerAt(c, i)
  {
    var n := Number(c.agents.workers[i]);
    if n in c.log then MoveTo(c, i, Gone)
    else MoveTo(c, i, Holding).(log := c.log[n := InProgress])
  }

  function CallStep(c: Cell, i: nat): Cell
    requires WorkerAt(c, i)
  {
    var h := c.agents.history;
    var c1 := MoveTo(c, i, Calling);
    c1.(agents := c1.agents.(history := h.(calls := h.calls + [Number(c.agents.workers[i])])))
  }

  function ReturnStep(c: Cell, i: nat, o: Outcome): Cell
    requires WorkerAt(c, i)
  {
    var h := c.agents.history;
    var c1 := MoveTo(c, i, Returned(o));
    if o != Accepted then c1
    else c1.(agents := c1.agents.(history := h.(delivered := h.delivered + [Number(c.agents.workers[i])])))
  }

  function RecordStep(c: Cell, i: nat): Cell
    requires WorkerAt(c, i) && PcOf(c, i).Returned?
  {
    var o := PcOf(c, i).outcome;
    MoveTo(c, i, Recorded(o)).(log := c.log[Number(c.agents.workers[i]) := MarkFor(o)])
  }

  /** `transition` checks the in-memory status; when it allows the target, the save overwrites the row. */
  function SaveStep(c: Cell, i: nat, at: Time, draw: real): Cell
    requires WorkerAt(c, i) && PcOf(c, i).Recorded?
  {
    var w := c.agents.workers[i];
    var o := w.pc.outcome;
    var target := Target(o, Number(w), w.seen.maxAttempts);
    var wait := Backoff.ComputeBackoff(c.policy, Number(w), draw);
    if !CanTransition(w.seen.status, target) then MoveTo(c, i, Gone)
    else
      var c1 := MoveTo(c, i, if target == Failed then Falling else Gone);
      var h := c.agents.history;
      c1.(row := SavedRow(c.row, w, o, at, wait),
          agents := c1.agents.(history := if target == Retry then h.(waited := h.waited + wait) else h))
  }

  predicate Dispatchable(row: Row) {
    row.status == Pending || row.status == Retry
  }

  function DispatchRow(row: Row, at: Time): Row {
    if Dispatchable(row) then row.(status := Dispatching, dispatchingAt := Some(at)) else row
  }

  /** UPDATE ... WHERE status IN (pending, retry); only the winner goes on to publish. */
  function DispatchStep(c: Cell, at: Time): Cell {
    if Dispatchable(c.row) then
      c.(row := DispatchRow(c.row, at),
         agents := c.agents.(dispatchers := c.agents.dispatchers + [Won]))
    else c
  }

  function PublishStep(c: Cell, j: nat): Cell
    requires j < |c.agents.dispatchers|
  {
    SetDispatcher(c, j, Enqueued).(messages := c.messages + 1)
  }

  /** `delay` raised; the message may have reached the broker all the same. */
  function PublishFailsStep(c: Cell, j: nat, reached: bool): Cell
    requires j < |c.agents.dispatchers|
  {
    SetDispatcher(c, j, NotEnqueued).(messages := if reached then c.messages + 1 else c.messages)
  }

  function MarkQueuedRow(row: Row): Row {
    if row.status == Dispatching then row.(status := Queued) else row
  }

  function ReleasedRow(row: Row): Row {
    if row.status == Dispatching then row.(status := Pending, dispatchingAt := None) else row
  }

  /** UPDATE ... WHERE status = dispatching, after publishing succeeded or failed. */
  function SettleStep(c: Cell, j: nat, queued: bool): Cell
    requires j < |c.agents.dispatchers|
  {
    SetDispatcher(c, j, Left).(row := if queued then MarkQueuedRow(c.row) else ReleasedRow(c.row))
  }

  function RecoveredDispatching(row: Row, at: Time, timeout: Time): Row {
    if row.status == Dispatching && Expired(row.dispatchingAt, at, timeout)
    then row.(status := Pending, dispatchingAt := None) else row
  }

  function RecoveredProcessing(row: Row, at: Time, timeout: Time): Row {
    if row.status == Processing && Expired(row.processingAt, at, timeout)
    then row.(status := Retry, processingAt := None, nextRetryAt := None) else row
  }

  /** One row as a bulk recovery statement leaves it. */
  function RecoveredRow(row: Row, e: Event): Row
    requires e.RecoverDispatching? || e.RecoverProcessing?
  {
    if e.RecoverDispatching? then RecoveredDispatching(row, e.at, e.timeout)
    else RecoveredProcessing(row, e.at, e.timeout)
  }

  /** The `retry` action: whatever `transition(PENDING)` allows. */
  function RetriedRow(row: Row): Row {
    if CanTransition(row.status, Pending) then row.(status := Pending, nextRetryAt := None) else row
  }

  function RetryStep(c: Cell): Cell {
    var h := c.agents.history;
    if CanTransition(c.row.status, Pending) then
      c.(row := RetriedRow(c.row), agents := c.agents.(history := h.(manualRetries := h.manualRetries + 1)))
    else c
  }

  function CancelledRow(row: Row): Row {
    if Cancellable(row.status) then row.(status := Cancelled) else row
  }

  function Step(c: Cell, e: Event): Cell
    requires Enabled(c, e)
  {
    match e
    case Deliver => DeliverStep(c)
    case Duplicate => c.(messages := c.messages + 1)
    case Lose => c.(messages := c.messages - 1)
    case Claim(i, at) => ClaimStep(c, i, at)
    case Refresh(i) => SetWorker(c, i, Worker(Refreshed, c.row))
    case Insert(i) => InsertStep(c, i)
    case Reject(i) => MoveTo(c, i, Returned(Rejected))
    case Call(i) => CallStep(c, i)
    case Return(i, o) => ReturnStep(c, i, o)
    case Record(i) => RecordStep(c, i)
    case Save(i, at, draw) => SaveStep(c, i, at, draw)
    case Fall(i) => MoveTo(c, i, Gone)
    case Crash(i) => MoveTo(c, i, Gone)
    case Dispatch(at) => DispatchStep(c, at)
    case Publish(j) => PublishStep(c, j)
    case PublishFails(j, reached) => PublishFailsStep(c, j, reached)
    case MarkQueued(j) => SettleStep(c, j, true)
    case Release(j) => SettleStep(c, j, false)
    case Abandon(j) => SetDispatcher(c, j, Left)
    case RecoverDispatching(_, _) => c.(row := RecoveredRow(c.row, e))
    case RecoverProcessing(_, _) => c.(row := RecoveredRow(c.row, e))
    case ManualRetry => RetryStep(c)
    case Cancel => c.(row := CancelledRow(c.row))
  }

  /** A run is a sequence of events, each possible where it happens. */
  predicate Run(c: Cell, es: seq<Event>)
    decreases |es|
  {
    es == [] || (Enabled(c, es[0]) && Run(Step(c, es[0]), es[1..]))
  }

  function After(c: Cell, es: seq<Event>): Cell
    requires Run(c, es)
    decreases |es|
  {
    if es == [] then c else After(Step(c, es[0]), es[1..])
  }
}
