/**
  The tables and the broker, with one method per statement the program issues against them.

  Between two statements of one worker or dispatcher anybody else may act; `Interfere` stands for
  that. Ghost fields record where every worker and dispatcher is, so that each statement can be
  shown to be one move of the system.
 */
module Database {
  import opened Wrappers
  import opened Enums
  import opened Rows
  import opened Rules
  import Backoff
  import opened Cells
  import opened Systems
  import opened Interference

  /** The in-memory object a worker loads, changes and saves. */
  class NotificationOutbox {
    const key: Key
    var notice: Notice
    var status: Status
    var attempts: nat
    var maxAttempts: nat
    var nextRetryAt: Option<Time>

    constructor (k: Key, row: Row)
      ensures key == k && Mirrors(row)
    {
      key := k;
      notice, status, attempts, maxAttempts, nextRetryAt :=
        row.notice, row.status, row.attempts, row.maxAttempts, row.nextRetryAt;
    }

    predicate Mirrors(row: Row)
      reads this
    {
      notice == row.notice && status == row.status && attempts == row.attempts && maxAttempts == row.maxAttempts
      && nextRetryAt == row.nextRetryAt
    }

    /** Refused unless the transition table allows it; `ok` is false where the program raises. */
    method Transition(to: Status) returns (ok: bool)
      modifies this`status
      ensures ok <==> CanTransition(old(status), to)
      ensures status == if ok then to else old(status)
    {
      ok := CanTransition(status, to);
      if ok {
        status := to;
      }
    }
  }

  function SetCell(s: Sys, k: Key, c: Cell): Sys {
    s.(cells := s.cells[k := c])
  }

  /** The system's cells, put together from the separate tables. */
  ghost function Assemble(rows: map<Key, Row>, attempts: map<Key, Log>, messages: map<Key, nat>,
                          agents: map<Key, Agents>, policy: Backoff.Policy)
    : map<Key, Cell>
    requires rows.Keys == attempts.Keys == messages.Keys == agents.Keys
  {
    map k | k in rows :: Cell(rows[k], attempts[k], messages[k], agents[k], policy)
  }

  lemma AssembleOne(rows: map<Key, Row>, attempts: map<Key, Log>, messages: map<Key, nat>, agents: map<Key, Agents>,
                    policy: Backoff.Policy, k: Key, c: Cell)
    requires rows.Keys == attempts.Keys == messages.Keys == agents.Keys && c.policy == policy
    ensures rows[k := c.row].Keys == attempts[k := c.log].Keys == messages[k := c.messages].Keys ==
              agents[k := c.agents].Keys
    ensures Assemble(rows[k := c.row], attempts[k := c.log], messages[k := c.messages], agents[k := c.agents], policy)
         == Assemble(rows, attempts, messages, agents, policy)[k := c]
  {
  }

  lemma AssembleEach(rows: map<Key, Row>, attempts: map<Key, Log>, messages: map<Key, nat>, agents: map<Key, Agents>,
                     policy: Backoff.Policy, born: map<Key, Gates>, changed: map<Key, Row>, e: Event)
    requires rows.Keys == attempts.Keys == messages.Keys == agents.Keys == changed.Keys
    requires e.RecoverDispatching? || e.RecoverProcessing?
    requires forall k :: k in rows ==> changed[k] == RecoveredRow(rows[k], e)
    ensures Sys(Assemble(changed, attempts, messages, agents, policy), born)
         == EachRow(Sys(Assemble(rows, attempts, messages, agents, policy), born), e)
  {
  }

  /** All rows after one bulk recovery statement. */
  function RecoveredRows(rows: map<Key, Row>, e: Event): map<Key, Row>
    requires e.RecoverDispatching? || e.RecoverProcessing?
  {
    map k | k in rows :: RecoveredRow(rows[k], e)
  }

  /** The rows whose stored value differs. */
  function Changed(rows: map<Key, Row>, after: map<Key, Row>): set<Key> {
    set k | k in rows && (k !in after || after[k] != rows[k])
  }

  /** Rows claimed for dispatch at or before the cutoff are pending and unclaimed again; all others are as before. */
  ghost function DispatchingReleased(rows: map<Key, Row>, cutoff: Time): map<Key, Row> {
    map k | k in rows ::
      var row := rows[k];
      if row.status == Dispatching && row.dispatchingAt.Some? && row.dispatchingAt.value <= cutoff
      then row.(status := Pending, dispatchingAt := None) else row
  }

  /** Rows claimed by a worker at or before the cutoff wait for a retry, at once; all others are as before. */
  ghost function ProcessingReleased(rows: map<Key, Row>, cutoff: Time): map<Key, Row> {
    map k | k in rows ::
      var row := rows[k];
      if row.status == Processing && row.processingAt.Some? && row.processingAt.value <= cutoff
      then row.(status := Retry, processingAt := None, nextRetryAt := None) else row
  }

  /** The first bulk statement on the table: UPDATE ... WHERE status = dispatching AND dispatching_at <= cutoff. */
  method ReleaseDispatching(rows: map<Key, Row>, at: Time, timeout: Time)
    returns (released: map<Key, Row>, moved: nat)
    ensures released == RecoveredRows(rows, RecoverDispatching(at, timeout)) == DispatchingReleased(rows, at - timeout)
    ensures moved == |Changed(rows, released)|
  {
    var expired := set k | k in rows && rows[k].status == Dispatching && Expired(rows[k].dispatchingAt, at, timeout);
    moved := |expired|;
    released := map k | k in rows ::
        if k in expired then rows[k].(status := Pending, dispatchingAt := None) else rows[k];
    assert expired == Changed(rows, released);
  }

  /** The second: UPDATE ... WHERE status = processing AND processing_at <= cutoff. */
  method ReleaseProcessing(rows: map<Key, Row>, at: Time, timeout: Time)
    returns (released: map<Key, Row>, moved: nat)
    ensures released == RecoveredRows(rows, RecoverProcessing(at, timeout)) == ProcessingReleased(rows, at - timeout)
    ensures moved == |Changed(rows, released)|
  {
    var expired := set k | k in rows && rows[k].status == Processing && Expired(rows[k].processingAt, at, timeout);
    moved := |expired|;
    released := map k | k in rows ::
        if k in expired then rows[k].(status := Retry, processingAt := None, nextRetryAt := None) else rows[k];
    assert expired == Changed(rows, released);
  }

  function BulkMove(e: Event): Move
    requires e.RecoverDispatching? || e.RecoverProcessing?
  {
    if e.RecoverDispatching? then RecoverAllDispatching(e.at, e.timeout) else RecoverAllProcessing(e.at, e.timeout)
  }

  /** Releasing dispatching rows is always a move of the system. */
  lemma BulkLeads(cfg: Config, s: Sys, e: Event)
    requires e.RecoverDispatching? || e.RecoverProcessing?
    ensures e.RecoverDispatching? || MoveEnabled(cfg, s, BulkMove(e)) ==> Leads(cfg, s, EachRow(s, e))
  {
    if MoveEnabled(cfg, s, BulkMove(e)) {
      LeadsNowhere(cfg, s, Outsider);
      LeadsStep(cfg, s, s, BulkMove(e));
    }
  }

  class Database {
    const cfg: Config
    var rows: map<Key, Row>
    var attempts: map<Key, Log>
    var messages: map<Key, nat>
    ghost var agents: map<Key, Agents>
    ghost var born: map<Key, Gates>

    ghost predicate Valid()
      reads this
    {
      rows.Keys == attempts.Keys == messages.Keys == agents.Keys
    }

    ghost function State(): Sys
      reads this
      requires Valid()
    {
      Sys(Assemble(rows, attempts, messages, agents, cfg.policy), born)
    }

    /** Worker `i` of row `k` is exactly `w`. */
    ghost predicate Stands(k: Key, i: nat, w: Worker)
      reads this
    {
      k in rows && k in agents && i < |agents[k].workers| && agents[k].workers[i] == w
    }

    constructor (config: Config)
      ensures Valid() && State() == EMPTY && cfg == config
    {
      cfg := config;
      rows, attempts, messages, agents, born := map[], map[], map[], map[], map[];
    }

    /** Any number of moves by everybody except `me`; none at all when `quiet`. */
    method Interfere(ghost me: Agent, ghost quiet: bool)
      requires Valid()
      modifies this
      ensures Valid() && LeadsWithout(cfg, old(State()), State(), me)
      ensures SameForMe(old(State()), State(), me)
      ensures old(rows.Keys) <= rows.Keys
      ensures me.WorkerAgent? ==> forall w :: old(Stands(me.k, me.i, w)) ==>
                Stands(me.k, me.i, w) && rows[me.k].notice == old(rows[me.k].notice)
      ensures quiet ==> State() == old(State())
      ensures quiet ==> rows == old(rows) && attempts == old(attempts) && messages == old(messages)
    {
      LeadsNowhere(cfg, State(), me);
      OthersLeaveMeAlone(cfg, State(), State(), me);
    }

    /** Writes back one row, its attempts and its messages. */
    method Put(k: Key, row: Row, log: Log, queued: nat, ghost ag: Agents)
      requires Valid() && k in rows
      modifies this
      ensures Valid() && rows == old(rows)[k := row] && attempts == old(attempts)[k := log]
      ensures messages == old(messages)[k := queued]
      ensures State() == SetCell(old(State()), k, Cell(row, log, queued, ag, cfg.policy))
    {
      AssembleOne(rows, attempts, messages, agents, cfg.policy, k, Cell(row, log, queued, ag, cfg.policy));
      rows, attempts, messages := rows[k := row], attempts[k := log], messages[k := queued];
      agents := agents[k := ag];
    }

    /** A move that only changes where an agent stands. */
    ghost method Note(k: Key, e: Event)
      requires Valid() && k in rows && MoveEnabled(cfg, State(), RowMove(k, e))
      requires var c := State().cells[k];
        Step(c, e).row == c.row && Step(c, e).log == c.log && Step(c, e).messages == c.messages
        && Step(c, e).policy == c.policy
      modifies this`agents
      ensures Valid() && State() == SetCell(old(State()), k, Step(old(State()).cells[k], e))
      ensures Leads(cfg, old(State()), State())
    {
      LeadsNowhere(cfg, State(), Outsider);
      LeadsStep(cfg, State(), State(), RowMove(k, e));
      AssembleOne(rows, attempts, messages, agents, cfg.policy, k, Step(State().cells[k], e));
      assert rows[k := rows[k]] == rows && attempts[k := attempts[k]] == attempts &&
          messages[k := messages[k]] == messages;
      agents := agents[k := Step(State().cells[k], e).agents];
    }

    /** Links a statement's effect to the move it is. */
    lemma IsMove(k: Key, e: Event, c: Cell)
      requires Valid() && k in rows && MoveEnabled(cfg, State(), RowMove(k, e))
      requires c == Step(State().cells[k], e)
      ensures Leads(cfg, State(), SetCell(State(), k, c))
    {
      LeadsNowhere(cfg, State(), Outsider);
      LeadsStep(cfg, State(), State(), RowMove(k, e));
    }

    // -------------------------------------------------------------------------------------------
    // The worker's statements
    // -------------------------------------------------------------------------------------------

    /** The broker hands over a message, and the worker loads its row. */
    method TakeMessage(k: Key) returns (outbox: NotificationOutbox, ghost i: nat)
      requires Valid() && k in rows && messages[k] > 0
      modifies this
      ensures Valid() && k in rows
      ensures fresh(outbox) && outbox.key == k && outbox.Mirrors(old(rows[k]))
      ensures i == |old(State()).cells[k].agents.workers|
      ensures rows == old(rows) && attempts == old(attempts) && messages == old(messages)[k := old(messages[k]) - 1]
      ensures State() == SetCell(old(State()), k, DeliverStep(old(State()).cells[k]))
      ensures Leads(cfg, old(State()), State())
    {
      ghost var c := State().cells[k];
      i := |c.agents.workers|;
      IsMove(k, Deliver, DeliverStep(c));
      outbox := new NotificationOutbox(k, rows[k]);
      Put(k, rows[k], attempts[k], messages[k] - 1, DeliverStep(c).agents);
      assert rows == old(rows) && attempts == old(attempts);
    }

    /** UPDATE ... SET status = processing WHERE status IN (queued, pending, retry). */
    method Claim(k: Key, at: Time, ghost i: nat) returns (claimed: bool)
      requires Valid() && k in rows && WorkerAt(State().cells[k], i) && PcOf(State().cells[k], i).Read?
      modifies this
      ensures Valid() && k in rows
      ensures claimed <==> old(rows[k]).status in {Queued, Pending, Retry}
      ensures claimed ==> rows == old(rows)[k := old(rows[k]).(status := Processing, processingAt := Some(at))]
      ensures !claimed ==> rows == old(rows)
      ensures attempts == old(attempts)
      ensures State() == SetCell(old(State()), k, ClaimStep(old(State()).cells[k], i, at))
      ensures Leads(cfg, old(State()), State())
    {
      ghost var c := State().cells[k];
      IsMove(k, Event.Claim(i, at), ClaimStep(c, i, at));
      claimed := Claimable(rows[k].status);
      var row := rows[k];
      if claimed {
        row := row.(status := Processing, processingAt := Some(at));
      }
      Put(k, row, attempts[k], messages[k], ClaimStep(c, i, at).agents);
      assert attempts == old(attempts) && (!claimed ==> rows == old(rows));
    }

    /** refresh_from_db. */
    method Refresh(outbox: NotificationOutbox, ghost i: nat)
      requires Valid() && outbox.key in rows
      requires WorkerAt(State().cells[outbox.key], i) && PcOf(State().cells[outbox.key], i).Claimed?
      modifies this, outbox
      ensures Valid() && outbox.key in rows && outbox.Mirrors(rows[outbox.key])
      ensures var row := rows[outbox.key];
        && outbox.status == row.status && outbox.attempts == row.attempts && outbox.maxAttempts == row.maxAttempts
        && outbox.nextRetryAt == row.nextRetryAt && outbox.notice == row.notice
      ensures rows == old(rows) && attempts == old(attempts)
      ensures State() == SetCell(old(State()), outbox.key,
                                 SetWorker(old(State()).cells[outbox.key], i, Worker(Refreshed, old(rows[outbox.key]))))
      ensures Leads(cfg, old(State()), State())
    {
      var k := outbox.key;
      ghost var c := State().cells[k];
      outbox.notice, outbox.status, outbox.attempts, outbox.maxAttempts, outbox.nextRetryAt :=
        rows[k].notice, rows[k].status, rows[k].attempts, rows[k].maxAttempts, rows[k].nextRetryAt;
      Note(k, Event.Refresh(i));
    }

    /** INSERT of an attempt row; `created` is false where the unique constraint raises. */
    method CreateAttempt(k: Key, number: nat, ghost i: nat) returns (created: bool)
      requires Valid() && k in rows && WorkerAt(State().cells[k], i) && PcOf(State().cells[k], i).Refreshed?
      requires number == Number(State().cells[k].agents.workers[i])
      modifies this
      ensures Valid() && k in rows
      ensures created <==> number !in old(attempts[k])
      ensures rows == old(rows) && (!created ==> attempts == old(attempts))
      ensures created ==> attempts == old(attempts)[k := WithMark(old(attempts[k]), number, InProgress)]
      ensures k in attempts && (created ==> attempts[k] == old(attempts[k])[number := InProgress])
      ensures State() == SetCell(old(State()), k, InsertStep(old(State()).cells[k], i))
      ensures Leads(cfg, old(State()), State())
    {
      ghost var c := State().cells[k];
      IsMove(k, Insert(i), InsertStep(c, i));
      created := number !in attempts[k];
      var log := attempts[k];
      if created {
        log := WithMark(log, number, InProgress);
      }
      Put(k, rows[k], log, messages[k], InsertStep(c, i).agents);
      assert rows == old(rows) && (!created ==> attempts == old(attempts));
    }

    /** attempt.save with its final result. */
    method FinishAttempt(k: Key, number: nat, mark: Mark, ghost i: nat)
      requires Valid() && k in rows && WorkerAt(State().cells[k], i) && PcOf(State().cells[k], i).Returned?
      requires number == Number(State().cells[k].agents.workers[i])
      requires mark == MarkFor(PcOf(State().cells[k], i).outcome)
      modifies this
      ensures Valid() && k in rows
      ensures rows == old(rows) && attempts == old(attempts)[k := WithMark(old(attempts[k]), number, mark)]
      ensures k in attempts && attempts[k] == old(attempts[k])[number := mark]
      ensures State() == SetCell(old(State()), k, RecordStep(old(State()).cells[k], i))
      ensures Leads(cfg, old(State()), State())
    {
      ghost var c := State().cells[k];
      IsMove(k, Record(i), RecordStep(c, i));
      Put(k, rows[k], WithMark(attempts[k], number, mark), messages[k], RecordStep(c, i).agents);
      assert rows == old(rows);
    }

    /** The object holds what the worker's save is about to write. */
    ghost predicate ReadyToSave(outbox: NotificationOutbox, i: nat, at: Time, draw: real)
      reads this, outbox
      requires Valid()
    {
      && outbox.key in rows && Enabled(State().cells[outbox.key], Event.Save(i, at, draw))
      && var c := State().cells[outbox.key];
         var w := c.agents.workers[i];
         var target := Target(w.pc.outcome, Number(w), w.seen.maxAttempts);
         && CanTransition(w.seen.status, target)
         && outbox.status == target
         && outbox.attempts == (if w.pc.outcome == Rejected then w.seen.attempts else Number(w))
         && (target == Retry ==> outbox.nextRetryAt == Some(at + Backoff.ComputeBackoff(cfg.policy, Number(w), draw)))
    }

    /** The stored row with the listed fields replaced by the object's. */
    function WrittenRow(row: Row, outbox: NotificationOutbox, withRetryTime: bool): Row
      reads outbox
    {
      row.(status := outbox.status, attempts := outbox.attempts,
           nextRetryAt := if withRetryTime then outbox.nextRetryAt else row.nextRetryAt)
    }

    /** save(update_fields=[status, attempts, ...]): an unconditional overwrite from memory. */
    method Save(outbox: NotificationOutbox, withRetryTime: bool, ghost i: nat, ghost at: Time, ghost draw: real)
      requires Valid() && ReadyToSave(outbox, i, at, draw)
      requires withRetryTime <==> outbox.status == Retry
      modifies this
      ensures Valid() && outbox.key in rows
      ensures rows == old(rows)[outbox.key :=
                old(rows[outbox.key]).(status := outbox.status, attempts := outbox.attempts,
                  nextRetryAt := if withRetryTime then outbox.nextRetryAt else old(rows[outbox.key]).nextRetryAt)]
      ensures attempts == old(attempts)
      ensures State() == SetCell(old(State()), outbox.key, SaveStep(old(State()).cells[outbox.key], i, at, draw))
      ensures Leads(cfg, old(State()), State())
    {
      var k := outbox.key;
      ghost var c := State().cells[k];
      IsMove(k, Event.Save(i, at, draw), SaveStep(c, i, at, draw));
      Put(k, WrittenRow(rows[k], outbox, withRetryTime), attempts[k], messages[k], SaveStep(c, i, at, draw).agents);
      assert attempts == old(attempts);
    }

    /** The worker is done with its failed row. */
    ghost method LeaveFalling(k: Key, i: nat)
      requires Valid() && k in rows && Enabled(State().cells[k], Fall(i))
      modifies this`agents
      ensures Valid() && State() == SetCell(old(State()), k, MoveTo(old(State()).cells[k], i, Gone))
    {
      var c := MoveTo(State().cells[k], i, Gone);
      AssembleOne(rows, attempts, messages, agents, cfg.policy, k, c);
      assert rows[k := rows[k]] == rows && attempts[k := attempts[k]] == attempts &&
          messages[k := messages[k]] == messages;
      agents := agents[k := c.agents];
    }

    /** get_or_create on the idempotency key. */
    method GetOrCreate(k: Key, row: Row, ghost g: Gates) returns (created: bool)
      requires Valid()
      modifies this
      ensures Valid() && created == (k !in old(rows))
      ensures State() == Systems.GetOrCreate(cfg, old(State()), k, row, g)
      ensures rows == if created then old(rows)[k := row] else old(rows)
      ensures attempts == if created then old(attempts)[k := map[]] else old(attempts)
    {
      created := k !in rows;
      if created {
        AssembleOne(rows, attempts, messages, agents, cfg.policy, k, NewCell(row, cfg.policy));
        rows, attempts, messages := rows[k := row], attempts[k := map[]], messages[k := 0];
        agents, born := agents[k := NewCell(row, cfg.policy).agents], born[k := g];
      }
    }

    // -------------------------------------------------------------------------------------------
    // The dispatcher's statements
    // -------------------------------------------------------------------------------------------

    /** UPDATE ... SET status = dispatching WHERE status IN (pending, retry). */
    method ClaimForDispatch(k: Key, at: Time) returns (claimed: bool, ghost j: nat)
      requires Valid() && k in rows
      modifies this
      ensures Valid() && k in rows
      ensures claimed <==> old(rows[k]).status == Pending || old(rows[k]).status == Retry
      ensures claimed ==> rows == old(rows)[k := old(rows[k]).(status := Dispatching, dispatchingAt := Some(at))]
      ensures !claimed ==> rows == old(rows)
      ensures claimed ==> DispatcherAt(State().cells[k], j, Won)
      ensures State() == SetCell(old(State()), k, DispatchStep(old(State()).cells[k], at))
      ensures Leads(cfg, old(State()), State())
    {
      ghost var c := State().cells[k];
      j := |c.agents.dispatchers|;
      IsMove(k, Dispatch(at), DispatchStep(c, at));
      var row := rows[k];
      claimed := Dispatchable(row);
      if claimed {
        row := row.(status := Dispatching, dispatchingAt := Some(at));
      }
      Put(k, row, attempts[k], messages[k], DispatchStep(c, at).agents);
      assert !claimed ==> rows == old(rows);
    }

    /** process_notification.delay; when it raises, the message may still have reached the broker. */
    method Delay(k: Key, accepted: bool, reached: bool, ghost j: nat)
      requires Valid() && k in rows && DispatcherAt(State().cells[k], j, Won)
      modifies this
      ensures Valid() && k in rows
      ensures State() == SetCell(old(State()), k,
                                 if accepted then PublishStep(old(State()).cells[k], j)
                                 else PublishFailsStep(old(State()).cells[k], j, reached))
      ensures rows == old(rows)
      ensures messages == old(messages)[k := if accepted || reached then old(messages[k]) + 1 else old(messages[k])]
      ensures DispatcherAt(State().cells[k], j, if accepted then Enqueued else NotEnqueued)
      ensures Leads(cfg, old(State()), State())
    {
      ghost var c := State().cells[k];
      ghost var d := if accepted then PublishStep(c, j) else PublishFailsStep(c, j, reached);
      IsMove(k, if accepted then Publish(j) else PublishFails(j, reached), d);
      Put(k, rows[k], attempts[k], if accepted || reached then messages[k] + 1 else messages[k], d.agents);
      assert rows == old(rows);
    }

    /** UPDATE ... WHERE status = dispatching, to queued or back to pending. */
    method Settle(k: Key, queued: bool, ghost j: nat)
      requires Valid() && k in rows
      requires DispatcherAt(State().cells[k], j, if queued then Enqueued else NotEnqueued)
      modifies this
      ensures Valid() && k in rows
      ensures State() == SetCell(old(State()), k, SettleStep(old(State()).cells[k], j, queued))
      ensures rows == old(rows)[k :=
                if old(rows[k]).status != Dispatching then old(rows[k])
                else if queued then old(rows[k]).(status := Queued)
                else old(rows[k]).(status := Pending, dispatchingAt := None)]
      ensures Leads(cfg, old(State()), State())
    {
      ghost var c := State().cells[k];
      IsMove(k, if queued then MarkQueued(j) else Release(j), SettleStep(c, j, queued));
      var row := rows[k];
      if row.status == Dispatching {
        if queued {
          row := row.(status := Queued);
        } else {
          row := row.(status := Pending, dispatchingAt := None);
        }
      }
      Put(k, row, attempts[k], messages[k], SettleStep(c, j, queued).agents);
    }

    // -------------------------------------------------------------------------------------------
    // Bulk recovery
    // -------------------------------------------------------------------------------------------

    lemma BulkIsMove(e: Event, after: map<Key, Row>)
      requires Valid() && (e.RecoverDispatching? || e.RecoverProcessing?) && after == RecoveredRows(rows, e)
      ensures after.Keys == rows.Keys
      ensures Sys(Assemble(after, attempts, messages, agents, cfg.policy), born) == EachRow(State(), e)
      ensures e.RecoverDispatching? || MoveEnabled(cfg, State(), BulkMove(e)) ==>
              Leads(cfg, State(), Sys(Assemble(after, attempts, messages, agents, cfg.policy), born))
    {
      AssembleEach(rows, attempts, messages, agents, cfg.policy, born, after, e);
      BulkLeads(cfg, State(), e);
    }

    /** UPDATE every expired dispatching row back to pending; returns the row count. */
    method ReleaseExpiredDispatching(at: Time, timeout: Time) returns (moved: nat)
      requires Valid()
      modifies this
      ensures Valid() && Leads(cfg, old(State()), State())
      ensures State() == EachRow(old(State()), RecoverDispatching(at, timeout))
      ensures rows == DispatchingReleased(old(rows), at - timeout)
      ensures moved == |Changed(old(rows), rows)|
    {
      var released;
      released, moved := ReleaseDispatching(rows, at, timeout);
      BulkIsMove(RecoverDispatching(at, timeout), released);
      rows := released;
    }

    /** UPDATE every expired processing row to retry; returns the row count. A timeout does not make it patient. */
    method ReleaseExpiredProcessing(at: Time, timeout: Time) returns (moved: nat)
      requires Valid()
      modifies this
      ensures Valid()
      ensures MoveEnabled(cfg, old(State()), RecoverAllProcessing(at, timeout)) ==> Leads(cfg, old(State()), State())
      ensures rows == ProcessingReleased(old(rows), at - timeout)
      ensures moved == |Changed(old(rows), rows)|
    {
      var released;
      released, moved := ReleaseProcessing(rows, at, timeout);
      BulkIsMove(RecoverProcessing(at, timeout), released);
      rows := released;
    }

    // -------------------------------------------------------------------------------------------
    // The API actions, each one atomic
    // -------------------------------------------------------------------------------------------

    /** The `retry` action; `accepted` is false for a 400 response. */
    method RetryByHand(k: Key) returns (accepted: bool)
      requires Valid() && k in rows
      modifies this
      ensures Valid() && k in rows
      ensures accepted <==> old(rows[k].status) in {Failed, Dispatching, Queued, Retry}
      ensures rows == old(rows)[k :=
                if accepted then old(rows[k]).(status := Pending, nextRetryAt := None) else old(rows[k])]
      ensures attempts == old(attempts) && messages == old(messages)
      ensures State() == SetCell(old(State()), k, RetryStep(old(State()).cells[k]))
      ensures Leads(cfg, old(State()), State())
    {
      ghost var c := State().cells[k];
      IsMove(k, ManualRetry, RetryStep(c));
      var row := rows[k];
      accepted := CanTransition(row.status, Pending);
      WhoCanGoPending(row.status);
      if accepted {
        row := row.(status := Pending, nextRetryAt := None);
      }
      Put(k, row, attempts[k], messages[k], RetryStep(c).agents);
      assert attempts == old(attempts) && messages == old(messages);
    }

    /** The `cancel` action; `accepted` is false for a 400 response. */
    method CancelByHand(k: Key) returns (accepted: bool)
      requires Valid() && k in rows
      modifies this
      ensures Valid() && k in rows
      ensures accepted <==> old(rows[k].status) in {Pending, Retry, Dispatching, Queued}
      ensures rows == old(rows)[k := if accepted then old(rows[k]).(status := Cancelled) else old(rows[k])]
      ensures attempts == old(attempts) && messages == old(messages)
      ensures State() == SetCell(old(State()), k, old(State()).cells[k].(row := CancelledRow(old(rows[k]))))
      ensures Leads(cfg, old(State()), State())
    {
      ghost var c := State().cells[k];
      IsMove(k, Cancel, c.(row := CancelledRow(c.row)));
      accepted := Cancellable(rows[k].status);
      var row := rows[k];
      if accepted {
        row := row.(status := Cancelled);
      }
      Put(k, row, attempts[k], messages[k], c.agents);
      assert attempts == old(attempts) && messages == old(messages);
    }
  }
}
