/** `process_notification`, statement by statement, with everybody else acting in between. */
module Worker {
  import opened Wrappers
  import opened Enums
  import opened Rows
  import opened Rules
  import Backoff
  import opened Cells
  import opened Systems
  import opened Interference
  import opened Database
  import opened Engine

  /** Everything the worker gets from outside: clocks, validity of the address, the provider's answer. */
  datatype Surroundings = Surroundings(
    claimAt: Time,
    saveAt: Time,
    invalidRecipient: bool,
    noProvider: bool,
    answer: Outcome,
    draw: real,
    gates: Gates,
    maxAttempts: nat)

  predicate Sensible(a: Surroundings) {
    a.answer != Rejected && Backoff.Draw(a.draw)
  }

  /** How the attempt ends if it gets as far as the provider check. */
  function Ending(a: Surroundings): Outcome {
    if a.invalidRecipient || a.noProvider then Rejected else a.answer
  }

  /** Worker `i` stands at `pc` with `seen` as the copy it loaded, and `outbox` is its in-memory object. */
  ghost predicate At(db: Database, outbox: NotificationOutbox, i: nat, pc: Pc, seen: Row)
    reads db, outbox
  {
    db.Valid() && db.Stands(outbox.key, i, Worker(pc, seen)) && outbox.notice == db.rows[outbox.key].notice
  }

  // ---------------------------------------------------------------------------------------------
  // Single statements
  // ---------------------------------------------------------------------------------------------

  /** Others act; this worker stays where it is. */
  method Pause(db: Database, outbox: NotificationOutbox, ghost i: nat, ghost pc: Pc, ghost seen: Row, ghost s0: Sys,
               ghost quiet: bool)
    requires At(db, outbox, i, pc, seen) && Leads(db.cfg, s0, db.State())
    modifies db
    ensures At(db, outbox, i, pc, seen) && Leads(db.cfg, s0, db.State())
    ensures quiet ==> db.rows == old(db.rows) && db.attempts == old(db.attempts)
  {
    ghost var s1 := db.State();
    ghost var me := WorkerAgent(outbox.key, i);
    db.Interfere(me, quiet);
    LeadsOthers(db.cfg, s0, s1, db.State(), me);
  }

  /** Takes a message and loads its row; `go` is false when there is nothing left to do. */
  method Load(db: Database, k: Key, ghost s0: Sys) returns (outbox: NotificationOutbox, go: bool, ghost i: nat)
    requires db.Valid() && k in db.rows && db.messages[k] > 0 && Leads(db.cfg, s0, db.State())
    modifies db
    ensures fresh(outbox) && outbox.key == k
    ensures db.Valid() && Leads(db.cfg, s0, db.State())
    ensures go <==> old(db.rows[k].status) != Sent && old(db.rows[k].status) != Cancelled
    ensures go ==> At(db, outbox, i, Read, old(db.rows[k]))
    ensures db.rows == old(db.rows) && db.attempts == old(db.attempts)
  {
    ghost var s1 := db.State();
    outbox, i := db.TakeMessage(k);
    LeadsTrans(db.cfg, s0, s1, db.State());
    go := outbox.status != Sent && outbox.status != Cancelled;
  }

  method ClaimRow(db: Database, outbox: NotificationOutbox, at: Time, ghost i: nat, ghost seen: Row, ghost s0: Sys)
    returns (claimed: bool)
    requires At(db, outbox, i, Read, seen) && Leads(db.cfg, s0, db.State())
    modifies db
    ensures db.Valid() && Leads(db.cfg, s0, db.State())
    ensures claimed <==> Claimable(old(db.rows[outbox.key].status))
    ensures claimed ==> At(db, outbox, i, Claimed, seen)
    ensures claimed ==>
              db.rows == old(db.rows)[outbox.key :=
                  old(db.rows[outbox.key]).(status := Processing, processingAt := Some(at))]
    ensures !claimed ==> db.rows == old(db.rows)
    ensures db.attempts == old(db.attempts)
  {
    ghost var s1 := db.State();
    claimed := db.Claim(outbox.key, at, i);
    LeadsTrans(db.cfg, s0, s1, db.State());
    assert claimed ==> db.State().cells[outbox.key].agents.workers[i] == Worker(Claimed, seen);
  }

  method Reload(db: Database, outbox: NotificationOutbox, ghost i: nat, ghost seen: Row, ghost s0: Sys)
    requires At(db, outbox, i, Claimed, seen) && Leads(db.cfg, s0, db.State())
    modifies db, outbox
    ensures At(db, outbox, i, Refreshed, old(db.rows[outbox.key])) && Leads(db.cfg, s0, db.State())
    ensures outbox.Mirrors(old(db.rows[outbox.key]))
    ensures db.rows == old(db.rows) && db.attempts == old(db.attempts)
  {
    ghost var s1 := db.State();
    db.Refresh(outbox, i);
    LeadsTrans(db.cfg, s0, s1, db.State());
    assert db.State().cells[outbox.key].agents.workers[i] == Worker(Refreshed, old(db.rows[outbox.key]));
  }

  /** The log after an insertion that did or did not take place. */
  function Opened(log: Log, number: nat, created: bool): Log {
    if created then WithMark(log, number, InProgress) else log
  }

  method OpenAttempt(db: Database, outbox: NotificationOutbox, number: nat, ghost i: nat, ghost seen: Row,
                     ghost s0: Sys)
    returns (created: bool)
    requires At(db, outbox, i, Refreshed, seen) && Leads(db.cfg, s0, db.State()) && number == seen.attempts + 1
    modifies db
    ensures db.Valid() && Leads(db.cfg, s0, db.State())
    ensures created <==> number !in old(db.attempts[outbox.key])
    ensures created ==> At(db, outbox, i, Holding, seen)
    ensures outbox.key in db.attempts && db.attempts == old(db.attempts)[outbox.key := db.attempts[outbox.key]]
    ensures db.attempts[outbox.key] == Opened(old(db.attempts[outbox.key]), number, created)
    ensures db.rows == old(db.rows)
  {
    ghost var s1 := db.State();
    created := db.CreateAttempt(outbox.key, number, i);
    LeadsTrans(db.cfg, s0, s1, db.State());
    assert created ==> db.State().cells[outbox.key].agents.workers[i] == Worker(Holding, seen);
  }

  /** What happens between the worker and the provider, and does not touch the database tables. */
  predicate ProviderStep(e: Event, i: nat, from: Pc, to: Pc) {
    || (e == Reject(i) && from == Holding && to == Returned(Rejected))
    || (e == Call(i) && from == Holding && to == Calling)
    || (e.Return? && e.i == i && e.outcome != Rejected && from == Calling && to == Returned(e.outcome))
  }

  lemma ProviderStepEffect(c: Cell, e: Event, i: nat, from: Pc, to: Pc, seen: Row)
    requires WorkerAt(c, i) && c.agents.workers[i] == Worker(from, seen) && ProviderStep(e, i, from, to)
    ensures Enabled(c, e) && !e.Fall?
    ensures Step(c, e) == c.(agents := Step(c, e).agents)
    ensures Step(c, e).agents.workers == c.agents.workers[i := Worker(to, seen)]
  {
  }

  ghost method Advance(db: Database, outbox: NotificationOutbox, e: Event, from: Pc, to: Pc, i: nat, seen: Row, s0: Sys)
    requires At(db, outbox, i, from, seen) && Leads(db.cfg, s0, db.State()) && ProviderStep(e, i, from, to)
    modifies db`agents
    ensures At(db, outbox, i, to, seen) && Leads(db.cfg, s0, db.State())
  {
    var s1 := db.State();
    ProviderStepEffect(s1.cells[outbox.key], e, i, from, to, seen);
    db.Note(outbox.key, e);
    LeadsTrans(db.cfg, s0, s1, db.State());
    assert db.State().cells[outbox.key].agents.workers[i] == Worker(to, seen);
  }

  /** `_finish_attempt`, or the save of a successful attempt. */
  method FinishAttempt(db: Database, outbox: NotificationOutbox, number: nat, success: bool, ghost o: Outcome,
                       ghost i: nat, ghost seen: Row, ghost s0: Sys)
    requires At(db, outbox, i, Returned(o), seen) && Leads(db.cfg, s0, db.State())
    requires number == seen.attempts + 1 && (success <==> o == Accepted)
    modifies db
    ensures At(db, outbox, i, Recorded(o), seen) && Leads(db.cfg, s0, db.State())
    ensures db.rows == old(db.rows)
    ensures db.attempts == old(db.attempts)[outbox.key := WithMark(old(db.attempts[outbox.key]), number, MarkFor(o))]
  {
    ghost var s1 := db.State();
    db.FinishAttempt(outbox.key, number, if success then Succeeded else Unsuccessful, i);
    LeadsTrans(db.cfg, s0, s1, db.State());
    assert db.State().cells[outbox.key].agents.workers[i] == Worker(Recorded(o), seen);
  }

  /** `transition` raised: the worker dies without writing. */
  ghost method Raise(db: Database, k: Key, i: nat, o: Outcome, seen: Row, s0: Sys)
    requires db.Valid() && db.Stands(k, i, Worker(Recorded(o), seen)) && Leads(db.cfg, s0, db.State())
    requires !CanTransition(seen.status, Target(o, seen.attempts + 1, seen.maxAttempts))
    modifies db`agents
    ensures db.Valid() && Leads(db.cfg, s0, db.State())
  {
    var s1 := db.State();
    db.Note(k, Event.Save(i, 0.0, 0.0));
    LeadsTrans(db.cfg, s0, s1, db.State());
  }

  /** The object holds what an attempt that ended with `o` stores. */
  ghost predicate Prepared(db: Database, outbox: NotificationOutbox, o: Outcome, seen: Row, at: Time, draw: real)
    reads outbox
  {
    var target := Target(o, seen.attempts + 1, seen.maxAttempts);
    && CanTransition(seen.status, target) && outbox.status == target
    && outbox.attempts == (if o == Rejected then seen.attempts else seen.attempts + 1)
    && (target == Retry ==>
        outbox.nextRetryAt == Some(at + Backoff.ComputeBackoff(db.cfg.policy, seen.attempts + 1, draw)))
  }

  method SaveOutbox(db: Database, outbox: NotificationOutbox, withRetryTime: bool, ghost i: nat, ghost o: Outcome,
                    ghost seen: Row, ghost at: Time, ghost draw: real, ghost s0: Sys)
    requires At(db, outbox, i, Recorded(o), seen) && Leads(db.cfg, s0, db.State()) && Backoff.Draw(draw)
    requires Prepared(db, outbox, o, seen, at, draw) && (withRetryTime <==> outbox.status == Retry)
    modifies db
    ensures At(db, outbox, i, if outbox.status == Failed then Falling else Gone, seen)
    ensures Leads(db.cfg, s0, db.State())
    ensures db.rows == old(db.rows)[outbox.key := db.WrittenRow(old(db.rows[outbox.key]), outbox, withRetryTime)]
    ensures db.attempts == old(db.attempts)
  {
    ghost var s1 := db.State();
    db.Save(outbox, withRetryTime, i, at, draw);
    LeadsTrans(db.cfg, s0, s1, db.State());
    assert db.State().cells[outbox.key].agents.workers[i]
        == Worker(if outbox.status == Failed then Falling else Gone, seen);
  }

  /** Row `k` is now `row`, the new keys are `extra`, and every other row is as before. */
  ghost predicate Leaves(before: map<Key, Row>, after: map<Key, Row>, k: Key, row: Row, extra: set<Key>) {
    && after.Keys == before.Keys + extra
    && k in after && after[k] == row
    && forall q :: q in before && q != k ==> after[q] == before[q]
  }

  lemma LeavesAfterUpdate(before: map<Key, Row>, mid: map<Key, Row>, after: map<Key, Row>, k: Key, row: Row,
                          extra: set<Key>)
    requires k in before && k in mid && mid == before[k := mid[k]] && Leaves(mid, after, k, row, extra)
    ensures Leaves(before, after, k, row, extra)
  {
  }

  lemma LeavesOne(before: map<Key, Row>, k: Key, row: Row)
    requires k in before
    ensures Leaves(before, before[k := row], k, row, {})
  {
  }

  /** An attempt has ended: the row is now `row`, and attempt `number` carries `mark`. */
  ghost predicate Ended(before: map<Key, Row>, log: Log, after: map<Key, Row>, logAfter: Log, k: Key, row: Row,
                        extra: set<Key>, number: nat, mark: Mark)
  {
    Leaves(before, after, k, row, extra) && logAfter == WithMark(log, number, mark)
  }

  lemma EndedNow(before: map<Key, Row>, log: Log, mid: map<Key, Log>, after: map<Key, Row>, end: map<Key, Log>,
                 k: Key, row: Row, extra: set<Key>, number: nat, mark: Mark)
    requires Leaves(before, after, k, row, extra)
    requires k in mid && mid[k] == WithMark(log, number, mark) && SameLog(mid, end, k)
    ensures k in end && Ended(before, log, after, end[k], k, row, extra, number, mark)
  {
  }

  ghost predicate SameLog(before: map<Key, Log>, after: map<Key, Log>, k: Key) {
    k in before ==> k in after && after[k] == before[k]
  }

  method CreateFallback(db: Database, outbox: NotificationOutbox, a: Surroundings, ghost i: nat, ghost seen: Row,
                        ghost s0: Sys)
    requires At(db, outbox, i, Falling, seen) && Leads(db.cfg, s0, db.State())
    modifies db
    ensures db.Valid() && Leads(db.cfg, s0, db.State())
    ensures Leaves(old(db.rows), db.rows, outbox.key, old(db.rows[outbox.key]),
                   FallbackKeys(db.cfg, outbox.key, outbox.notice, a.gates))
    ensures SameLog(old(db.attempts), db.attempts, outbox.key)
  {
    ghost var s1, rows0, log0 := db.State(), db.rows, db.attempts;
    var engine := new NotificationEngine(db);
    var created := engine.CreateFallbackOutbox(outbox, a.gates, a.saveAt, a.maxAttempts, i);
    LeadsTrans(db.cfg, s0, s1, db.State());
    FallbackLeaves(db.cfg, rows0, db.rows, outbox.key, outbox.notice, a.gates, created);
    if created.Some? {
      LogKept(log0, db.attempts, outbox.key, created.value);
    }
  }

  lemma LogKept(before: map<Key, Log>, after: map<Key, Log>, k: Key, q: Key)
    requires k != q && after == before[q := map[]]
    ensures SameLog(before, after, k)
  {
  }

  lemma FallbackLeaves(cfg: Config, before: map<Key, Row>, after: map<Key, Row>, k: Key, n: Notice, g: Gates,
                       created: Option<Key>)
    requires k in before
    requires var ch := FallbackChannel(cfg.rules, g, n);
      && (created.Some? <==> ch.Some? && FallbackKey(k, ch.value) !in before)
      && (created.Some? ==> created.value == FallbackKey(k, ch.value) && created.value in after)
    requires after == if created.Some? then before[created.value := after[created.value]] else before
    ensures Leaves(before, after, k, before[k], FallbackKeys(cfg, k, n, g))
  {
  }

  /** The key of the fallback row the gates allow, if any. */
  function FallbackKeys(cfg: Config, k: Key, n: Notice, g: Gates): set<Key> {
    match FallbackChannel(cfg.rules, g, n)
    case None => {}
    case Some(ch) => {FallbackKey(k, ch)}
  }

  // ---------------------------------------------------------------------------------------------
  // process_notification as a whole
  // ---------------------------------------------------------------------------------------------

  /** The row an undisturbed attempt leaves, starting from the loaded PROCESSING row. */
  function Concluded(cfg: Config, row: Row, a: Surroundings): Row {
    var n := row.attempts + 1;
    match Ending(a)
    case Accepted => row.(status := Sent, attempts := n)
    case Temporary =>
      if n < row.maxAttempts
      then row.(status := Retry, attempts := n,
          nextRetryAt := Some(a.saveAt + Backoff.ComputeBackoff(cfg.policy, n, a.draw)))
      else row.(status := Failed, attempts := n)
    case Permanent => row.(status := Failed, attempts := n)
    case Rejected => row.(status := Failed)
  }

  /** The row FAILED is stored into. */
  function FailedRow(row: Row, o: Outcome, seen: Row): Row {
    row.(status := Failed, attempts := if o == Rejected then seen.attempts else seen.attempts + 1)
  }

  /** The transition to FAILED and its save; `ok` is false where the transition raises. */
  method StoreFailed(db: Database, outbox: NotificationOutbox, a: Surroundings, ghost i: nat, ghost o: Outcome,
                     ghost seen: Row, ghost s0: Sys)
    returns (ok: bool)
    requires At(db, outbox, i, Recorded(o), seen) && Leads(db.cfg, s0, db.State()) && Sensible(a)
    requires Target(o, seen.attempts + 1, seen.maxAttempts) == Failed && outbox.status == seen.status
    requires outbox.attempts == (if o == Rejected then seen.attempts else seen.attempts + 1)
    modifies db, outbox`status
    ensures db.Valid() && Leads(db.cfg, s0, db.State()) && ok == CanTransition(seen.status, Failed)
    ensures ok ==> At(db, outbox, i, Falling, seen)
    ensures ok ==> db.rows == old(db.rows)[outbox.key := FailedRow(old(db.rows[outbox.key]), o, seen)]
    ensures ok ==> db.attempts == old(db.attempts)
  {
    ok := outbox.Transition(Failed);
    if !ok {
      Raise(db, outbox.key, i, o, seen, s0);
      return;
    }
    ghost var rows0 := db.rows;
    SaveOutbox(db, outbox, false, i, o, seen, a.saveAt, a.draw, s0);
    assert db.rows == rows0[outbox.key := FailedRow(rows0[outbox.key], o, seen)];
  }

  /** `_fail_outbox`: store FAILED if the loaded status allows it, then offer the fallback channel. */
  method FailOutbox(db: Database, outbox: NotificationOutbox, counted: Option<nat>, a: Surroundings, ghost i: nat,
                    ghost o: Outcome, ghost seen: Row, ghost s0: Sys, ghost quiet: bool)
    requires At(db, outbox, i, Recorded(o), seen) && Leads(db.cfg, s0, db.State()) && Sensible(a)
    requires Target(o, seen.attempts + 1, seen.maxAttempts) == Failed
    requires outbox.status == seen.status && outbox.notice == seen.notice
    requires outbox.attempts == (if o == Rejected then seen.attempts else seen.attempts + 1)
    requires counted == if o == Rejected then None else Some(seen.attempts + 1)
    modifies db, outbox
    ensures db.Valid() && Leads(db.cfg, s0, db.State())
    ensures quiet && CanTransition(seen.status, Failed) ==>
            && Leaves(old(db.rows), db.rows, outbox.key, FailedRow(old(db.rows[outbox.key]), o, seen),
                      FallbackKeys(db.cfg, outbox.key, seen.notice, a.gates))
            && SameLog(old(db.attempts), db.attempts, outbox.key)
  {
    ghost var rows0 := db.rows;
    if counted.Some? {
      outbox.attempts := counted.value;
    }
    var ok := StoreFailed(db, outbox, a, i, o, seen, s0);
    if !ok {
      return;
    }
    ghost var row1 := FailedRow(rows0[outbox.key], o, seen);
    Pause(db, outbox, i, Falling, seen, s0, quiet);
    ghost var rows1 := db.rows;
    CreateFallback(db, outbox, a, i, seen, s0);
    if quiet {
      LeavesAfterUpdate(rows0, rows1, db.rows, outbox.key, row1,
          FallbackKeys(db.cfg, outbox.key, seen.notice, a.gates));
    }
  }

  /** The provider accepted the message. */
  method Succeed(db: Database, outbox: NotificationOutbox, number: nat, a: Surroundings, ghost i: nat, ghost seen: Row,
                 ghost s0: Sys)
    requires At(db, outbox, i, Recorded(Accepted), seen) && Leads(db.cfg, s0, db.State()) && Sensible(a)
    requires outbox.Mirrors(seen) && number == seen.attempts + 1
    modifies db, outbox
    ensures db.Valid() && Leads(db.cfg, s0, db.State())
    ensures CanTransition(seen.status, Sent) ==>
            && Leaves(old(db.rows), db.rows, outbox.key,
                old(db.rows[outbox.key]).(status := Sent, attempts := number), {})
            && db.attempts == old(db.attempts)
  {
    outbox.attempts := number;
    var ok := outbox.Transition(Sent);
    if !ok {
      Raise(db, outbox.key, i, Accepted, seen, s0);
      return;
    }
    ghost var rows0 := db.rows;
    SaveOutbox(db, outbox, false, i, Accepted, seen, a.saveAt, a.draw, s0);
    LeavesOne(rows0, outbox.key, rows0[outbox.key].(status := Sent, attempts := number));
  }

  function RetriedLater(cfg: Config, row: Row, seen: Row, a: Surroundings): Row {
    row.(status := Retry, attempts := seen.attempts + 1,
         nextRetryAt := Some(a.saveAt + Backoff.ComputeBackoff(cfg.policy, seen.attempts + 1, a.draw)))
  }

  /** A temporary error with attempts left. */
  method ScheduleRetry(db: Database, outbox: NotificationOutbox, a: Surroundings, ghost i: nat, ghost seen: Row,
                       ghost s0: Sys)
    requires At(db, outbox, i, Recorded(Temporary), seen) && Leads(db.cfg, s0, db.State()) && Sensible(a)
    requires outbox.status == seen.status && outbox.attempts == seen.attempts + 1 < seen.maxAttempts
    modifies db, outbox
    ensures db.Valid() && Leads(db.cfg, s0, db.State())
    ensures CanTransition(seen.status, Retry) ==>
            && Leaves(old(db.rows), db.rows, outbox.key, RetriedLater(db.cfg, old(db.rows[outbox.key]), seen, a), {})
            && db.attempts == old(db.attempts)
  {
    var ok := outbox.Transition(Retry);
    if !ok {
      Raise(db, outbox.key, i, Temporary, seen, s0);
      return;
    }
    outbox.nextRetryAt := Some(a.saveAt + Backoff.ComputeBackoff(db.cfg.policy, outbox.attempts, a.draw));
    ghost var rows0 := db.rows;
    SaveOutbox(db, outbox, true, i, Temporary, seen, a.saveAt, a.draw, s0);
    assert db.rows == rows0[outbox.key := RetriedLater(db.cfg, rows0[outbox.key], seen, a)];
    LeavesOne(rows0, outbox.key, RetriedLater(db.cfg, rows0[outbox.key], seen, a));
  }

  /** The provider raised. */
  method HandleError(db: Database, outbox: NotificationOutbox, number: nat, a: Surroundings, ghost i: nat,
                     ghost seen: Row, ghost s0: Sys, ghost quiet: bool)
    requires At(db, outbox, i, Recorded(a.answer), seen) && Leads(db.cfg, s0, db.State()) && Sensible(a)
    requires a.answer != Accepted && outbox.Mirrors(seen) && number == seen.attempts + 1
    modifies db, outbox
    ensures db.Valid() && Leads(db.cfg, s0, db.State())
    ensures quiet && seen.status == Processing ==>
            if Target(a.answer, number, seen.maxAttempts) == Retry
            then Leaves(old(db.rows), db.rows, outbox.key, RetriedLater(db.cfg, old(db.rows[outbox.key]), seen, a), {})
            else Leaves(old(db.rows), db.rows, outbox.key, FailedRow(old(db.rows[outbox.key]), a.answer, seen),
                        FallbackKeys(db.cfg, outbox.key, seen.notice, a.gates))
    ensures quiet && seen.status == Processing ==> SameLog(old(db.attempts), db.attempts, outbox.key)
  {
    outbox.attempts := number;
    if a.answer == Temporary && outbox.attempts < outbox.maxAttempts {
      ScheduleRetry(db, outbox, a, i, seen, s0);
    } else {
      FailOutbox(db, outbox, Some(outbox.attempts), a, i, a.answer, seen, s0, quiet);
    }
  }

  /** Records the attempt as failed without a call to the provider. */
  method RecordRejection(db: Database, outbox: NotificationOutbox, number: nat, ghost i: nat, ghost seen: Row,
                         ghost s0: Sys, ghost quiet: bool)
    requires At(db, outbox, i, Holding, seen) && Leads(db.cfg, s0, db.State())
    requires number == seen.attempts + 1
    modifies db
    ensures At(db, outbox, i, Recorded(Rejected), seen) && Leads(db.cfg, s0, db.State())
    ensures quiet ==>
            && db.rows == old(db.rows)
            && db.attempts[outbox.key] == WithMark(old(db.attempts[outbox.key]), number, Unsuccessful)
  {
    ghost var log := db.attempts[outbox.key];
    Advance(db, outbox, Reject(i), Holding, Returned(Rejected), i, seen, s0);
    FinishAttempt(db, outbox, number, false, Rejected, i, seen, s0);
    assert db.attempts[outbox.key] == WithMark(log, number, Unsuccessful);
    Pause(db, outbox, i, Recorded(Rejected), seen, s0, quiet);
  }

  /** Invalid recipient or no provider. */
  method RejectAttempt(db: Database, outbox: NotificationOutbox, number: nat, a: Surroundings, ghost i: nat,
                       ghost seen: Row, ghost s0: Sys, ghost quiet: bool)
    requires At(db, outbox, i, Holding, seen) && Leads(db.cfg, s0, db.State()) && Sensible(a)
    requires outbox.Mirrors(seen) && number == seen.attempts + 1
    modifies db, outbox
    ensures db.Valid() && Leads(db.cfg, s0, db.State())
    ensures quiet && seen.status == Processing ==>
            && outbox.key in db.attempts
            && Ended(old(db.rows), old(db.attempts[outbox.key]), db.rows, db.attempts[outbox.key], outbox.key,
                     FailedRow(old(db.rows[outbox.key]), Rejected, seen),
                     FallbackKeys(db.cfg, outbox.key, seen.notice, a.gates), number, Unsuccessful)
  {
    ghost var rows0, log0 := db.rows, db.attempts[outbox.key];
    RecordRejection(db, outbox, number, i, seen, s0, quiet);
    ghost var mid := db.attempts;
    assert quiet ==> db.rows == rows0 && mid[outbox.key] == WithMark(log0, number, Unsuccessful);
    ghost var failed, extra := FailedRow(rows0[outbox.key], Rejected, seen),
        FallbackKeys(db.cfg, outbox.key, seen.notice, a.gates);
    FailOutbox(db, outbox, None, a, i, Rejected, seen, s0, quiet);
    if quiet && seen.status == Processing {
      EndedNow(rows0, log0, mid, db.rows, db.attempts, outbox.key, failed, extra, number, Unsuccessful);
    }
  }

  /** Calls the provider and records its answer in the attempt row. */
  method SendAndRecord(db: Database, outbox: NotificationOutbox, number: nat, a: Surroundings, ghost i: nat,
                       ghost seen: Row, ghost s0: Sys, ghost quiet: bool)
    requires At(db, outbox, i, Holding, seen) && Leads(db.cfg, s0, db.State()) && Sensible(a)
    requires number == seen.attempts + 1
    modifies db
    ensures At(db, outbox, i, Recorded(a.answer), seen) && Leads(db.cfg, s0, db.State())
    ensures quiet ==>
            && db.rows == old(db.rows)
            && db.attempts[outbox.key] == WithMark(old(db.attempts[outbox.key]), number, MarkFor(a.answer))
  {
    Advance(db, outbox, Call(i), Holding, Calling, i, seen, s0);
    Pause(db, outbox, i, Calling, seen, s0, quiet);
    Advance(db, outbox, Return(i, a.answer), Calling, Returned(a.answer), i, seen, s0);
    FinishAttempt(db, outbox, number, a.answer == Accepted, a.answer, i, seen, s0);
    Pause(db, outbox, i, Recorded(a.answer), seen, s0, quiet);
  }

  /** What follows the recorded answer of the provider. */
  method Respond(db: Database, outbox: NotificationOutbox, number: nat, a: Surroundings, ghost i: nat,
                 ghost seen: Row, ghost s0: Sys, ghost quiet: bool)
    requires At(db, outbox, i, Recorded(a.answer), seen) && Leads(db.cfg, s0, db.State()) && Sensible(a)
    requires outbox.Mirrors(seen) && number == seen.attempts + 1 && !a.invalidRecipient && !a.noProvider
    modifies db, outbox
    ensures db.Valid() && Leads(db.cfg, s0, db.State())
    ensures quiet && seen.status == Processing && old(db.rows[outbox.key]) == seen ==>
            && Leaves(old(db.rows), db.rows, outbox.key, Concluded(db.cfg, seen, a),
                      FallbackOf(db.cfg, outbox.key, seen, a))
            && SameLog(old(db.attempts), db.attempts, outbox.key)
  {
    ConcludedCases(db.cfg, outbox.key, seen, a);
    if a.answer == Accepted {
      Succeed(db, outbox, number, a, i, seen, s0);
    } else {
      HandleError(db, outbox, number, a, i, seen, s0, quiet);
    }
  }

  /** The provider is called, its answer recorded, and the row concluded. */
  method SendAttempt(db: Database, outbox: NotificationOutbox, number: nat, a: Surroundings, ghost i: nat,
                     ghost seen: Row, ghost s0: Sys, ghost quiet: bool)
    requires At(db, outbox, i, Holding, seen) && Leads(db.cfg, s0, db.State()) && Sensible(a)
    requires outbox.Mirrors(seen) && number == seen.attempts + 1 && !a.invalidRecipient && !a.noProvider
    modifies db, outbox
    ensures db.Valid() && Leads(db.cfg, s0, db.State())
    ensures quiet && seen.status == Processing && old(db.rows[outbox.key]) == seen ==>
            && outbox.key in db.attempts
            && Ended(old(db.rows), old(db.attempts[outbox.key]), db.rows, db.attempts[outbox.key], outbox.key,
                     Concluded(db.cfg, seen, a), FallbackOf(db.cfg, outbox.key, seen, a), number, MarkFor(a.answer))
  {
    ghost var rows0, log0 := db.rows, db.attempts[outbox.key];
    SendAndRecord(db, outbox, number, a, i, seen, s0, quiet);
    ghost var mid := db.attempts;
    assert quiet ==> db.rows == rows0 && mid[outbox.key] == WithMark(log0, number, MarkFor(a.answer));
    Respond(db, outbox, number, a, i, seen, s0, quiet);
    if quiet && seen.status == Processing && rows0[outbox.key] == seen {
      EndedNow(rows0, log0, mid, db.rows, db.attempts, outbox.key, Concluded(db.cfg, seen, a),
               FallbackOf(db.cfg, outbox.key, seen, a), number, MarkFor(a.answer));
    }
  }

  /** From the validation checks to the last save, for a worker that owns attempt `number`. */
  method Attempt(db: Database, outbox: NotificationOutbox, number: nat, a: Surroundings, ghost i: nat, ghost seen: Row,
                 ghost s0: Sys, ghost quiet: bool)
    requires At(db, outbox, i, Holding, seen) && Leads(db.cfg, s0, db.State()) && Sensible(a)
    requires outbox.Mirrors(seen) && number == seen.attempts + 1
    modifies db, outbox
    ensures db.Valid() && Leads(db.cfg, s0, db.State())
    ensures quiet && seen.status == Processing && old(db.rows[outbox.key]) == seen ==>
            && outbox.key in db.attempts
            && Ended(old(db.rows), old(db.attempts[outbox.key]), db.rows, db.attempts[outbox.key], outbox.key,
                     Concluded(db.cfg, seen, a), FallbackOf(db.cfg, outbox.key, seen, a), number, MarkFor(Ending(a)))
  {
    if a.invalidRecipient || a.noProvider {
      ConcludedCases(db.cfg, outbox.key, seen, a);
      RejectAttempt(db, outbox, number, a, i, seen, s0, quiet);
    } else {
      SendAttempt(db, outbox, number, a, i, seen, s0, quiet);
    }
  }

  lemma ConcludedCases(cfg: Config, k: Key, row: Row, a: Surroundings)
    requires Sensible(a)
    ensures var o := Ending(a);
            var target := Target(o, row.attempts + 1, row.maxAttempts);
      && (target == Sent ==> Concluded(cfg, row, a) == row.(status := Sent, attempts := row.attempts + 1))
      && (target == Retry ==> Concluded(cfg, row, a) == RetriedLater(cfg, row, row, a))
      && (target == Failed ==> Concluded(cfg, row, a) == FailedRow(row, o, row))
      && FallbackOf(cfg, k, row, a) == (if target == Failed then FallbackKeys(cfg, k, row.notice, a.gates) else {})
  {
  }

  /** A fallback row is considered only when the attempt concludes as FAILED. */
  function FallbackOf(cfg: Config, k: Key, row: Row, a: Surroundings): set<Key> {
    if Concluded(cfg, row, a).status == Failed then FallbackKeys(cfg, k, row.notice, a.gates) else {}
  }

  /** What an undisturbed worker makes of a row it has claimed, and of its attempt log. */
  ghost predicate Worked(
      cfg: Config, before: map<Key, Row>, log: Log, after: map<Key, Row>, logAfter: Log, k: Key, a: Surroundings)
    requires k in before
  {
    var row := before[k];
    if row.attempts + 1 in log then after == before && logAfter == log
    else
      && Leaves(before, after, k, Concluded(cfg, row, a), FallbackOf(cfg, k, row, a))
      && logAfter == WithMark(log, row.attempts + 1, MarkFor(Ending(a)))
  }

  /** The number is taken: nothing changes. */
  lemma WorkedInVain(
      cfg: Config, before: map<Key, Row>, log: Log, after: map<Key, Row>, logAfter: Log, k: Key, a: Surroundings)
    requires k in before && before[k].attempts + 1 in log && after == before && logAfter == log
    ensures Worked(cfg, before, log, after, logAfter, k, a)
  {
  }

  lemma WorkedNow(
      cfg: Config, before: map<Key, Row>, log: Log, after: map<Key, Row>, logAfter: Log, k: Key, a: Surroundings)
    requires k in before && before[k].attempts + 1 !in log
    requires Ended(before, WithMark(log, before[k].attempts + 1, InProgress), after, logAfter, k,
              Concluded(cfg, before[k], a),
                   FallbackOf(cfg, k, before[k], a), before[k].attempts + 1, MarkFor(Ending(a)))
    ensures Worked(cfg, before, log, after, logAfter, k, a)
  {
  }

  /** What an undisturbed task makes of one row and its attempt log. */
  ghost predicate Undisturbed(
      cfg: Config, before: map<Key, Row>, log: Log, after: map<Key, Row>, logAfter: Log, k: Key, a: Surroundings)
    requires k in before
  {
    if before[k].status !in {Queued, Pending, Retry} then after == before && logAfter == log
    else
      Worked(cfg, before[k := before[k].(status := Processing, processingAt := Some(a.claimAt))], log, after, logAfter,
             k, a)
  }

  lemma ClaimedAndWorked(cfg: Config, before: map<Key, Row>, claimed: map<Key, Row>, log: Log, after: map<Key, Row>,
                         logAfter: Log, k: Key, a: Surroundings)
    requires k in before && before[k].status in {Queued, Pending, Retry}
    requires claimed == before[k := before[k].(status := Processing, processingAt := Some(a.claimAt))]
    requires Worked(cfg, claimed, log, after, logAfter, k, a)
    ensures Undisturbed(cfg, before, log, after, logAfter, k, a)
    ensures k in after && after[k].processingAt == Some(a.claimAt)
  {
  }

  /** The same, column by column, of a row that the task claimed. */
  lemma UndisturbedColumns(
      cfg: Config, before: map<Key, Row>, log: Log, after: map<Key, Row>, logAfter: Log, k: Key, a: Surroundings)
    requires k in before && Undisturbed(cfg, before, log, after, logAfter, k, a) && Sensible(a)
    requires before[k].status == Queued || before[k].status == Pending || before[k].status == Retry
    ensures k in after
    ensures var was, now, n := before[k], after[k], before[k].attempts + 1;
            var accepted := !a.invalidRecipient && !a.noProvider && a.answer == Accepted;
            var again := !a.invalidRecipient && !a.noProvider && a.answer == Temporary && n < was.maxAttempts;
      && now.processingAt == Some(a.claimAt)
      && (n in log ==> now == was.(status := Processing, processingAt := Some(a.claimAt)) && logAfter == log)
      && (n !in log ==>
            && now == was.(status := now.status, attempts := now.attempts, processingAt := now.processingAt,
                           nextRetryAt := now.nextRetryAt)
            && now.status == (if accepted then Sent else if again then Retry else Failed)
            && now.attempts == (if a.invalidRecipient || a.noProvider then was.attempts else n)
            && now.nextRetryAt == (if again then Some(a.saveAt + Backoff.ComputeBackoff(cfg.policy, n, a.draw))
                                   else was.nextRetryAt)
            && logAfter == log[n := if accepted then Succeeded else Unsuccessful])
  {
  }

  /** Up to and including the claim. */
  method Begin(db: Database, k: Key, a: Surroundings, ghost s0: Sys, ghost quiet: bool)
    returns (outbox: NotificationOutbox, claimed: bool, ghost i: nat)
    requires db.Valid() && k in db.rows && db.messages[k] > 0 && Leads(db.cfg, s0, db.State())
    modifies db
    ensures fresh(outbox) && outbox.key == k
    ensures db.Valid() && Leads(db.cfg, s0, db.State())
    ensures claimed ==> At(db, outbox, i, Claimed, old(db.rows[k]))
    ensures quiet ==> db.attempts == old(db.attempts)
    ensures quiet ==> (claimed <==> old(db.rows[k]).status in {Queued, Pending, Retry})
    ensures quiet && claimed ==>
              db.rows == old(db.rows)[k := old(db.rows[k]).(status := Processing, processingAt := Some(a.claimAt))]
    ensures quiet && !claimed ==> db.rows == old(db.rows)
  {
    ghost var row0 := db.rows[k];
    var go;
    outbox, go, i := Load(db, k, s0);
    claimed := false;
    if !go {
      return;  // already delivered or cancelled
    }
    Pause(db, outbox, i, Read, row0, s0, quiet);
    claimed := ClaimRow(db, outbox, a.claimAt, i, row0, s0);
  }

  /** Loads the claimed row again and inserts the next attempt row. */
  method RefreshAndInsert(db: Database, outbox: NotificationOutbox, ghost i: nat, ghost stale: Row, ghost s0: Sys,
                          ghost quiet: bool)
    returns (created: bool, number: nat, ghost seen: Row)
    requires At(db, outbox, i, Claimed, stale) && Leads(db.cfg, s0, db.State())
    modifies db, outbox
    ensures db.Valid() && Leads(db.cfg, s0, db.State())
    ensures number == seen.attempts + 1 && outbox.Mirrors(seen)
    ensures created ==> At(db, outbox, i, Holding, seen)
    ensures quiet ==> seen == old(db.rows[outbox.key]) && db.rows == old(db.rows)
    ensures quiet ==> (created <==> number !in old(db.attempts[outbox.key]))
    ensures quiet ==>
              outbox.key in db.attempts &&
                  db.attempts[outbox.key] == Opened(old(db.attempts[outbox.key]), number, created)
  {
    seen := db.rows[outbox.key];
    ghost var log := db.attempts[outbox.key];
    Reload(db, outbox, i, stale, s0);
    Pause(db, outbox, i, Refreshed, seen, s0, quiet);
    assert quiet ==> db.attempts[outbox.key] == log;
    number := outbox.attempts + 1;
    created := OpenAttempt(db, outbox, number, i, seen, s0);
  }

  /** The worker has inserted its attempt row; others may act before it goes on. */
  method SeeThrough(db: Database, outbox: NotificationOutbox, number: nat, a: Surroundings, ghost i: nat,
                    ghost seen: Row, ghost s0: Sys, ghost quiet: bool)
    requires At(db, outbox, i, Holding, seen) && Leads(db.cfg, s0, db.State()) && Sensible(a)
    requires outbox.Mirrors(seen) && number == seen.attempts + 1
    requires quiet ==> seen == db.rows[outbox.key] && seen.status == Processing
    modifies db, outbox
    ensures db.Valid() && Leads(db.cfg, s0, db.State())
    ensures quiet ==>
            && outbox.key in db.attempts
            && Ended(old(db.rows), old(db.attempts[outbox.key]), db.rows, db.attempts[outbox.key], outbox.key,
                     Concluded(db.cfg, seen, a), FallbackOf(db.cfg, outbox.key, seen, a), number, MarkFor(Ending(a)))
  {
    Pause(db, outbox, i, Holding, seen, s0, quiet);
    Attempt(db, outbox, number, a, i, seen, s0, quiet);
  }

  /**
    The rest of the work, `rows0` and `log` being the tables as they were before the insertion if nobody
    interferes.
   */
  method Conclude(db: Database, outbox: NotificationOutbox, number: nat, a: Surroundings, ghost i: nat, ghost seen: Row,
                  ghost s0: Sys, ghost quiet: bool, ghost rows0: map<Key, Row>, ghost log: Log)
    requires At(db, outbox, i, Holding, seen) && Leads(db.cfg, s0, db.State()) && Sensible(a)
    requires outbox.Mirrors(seen) && number == seen.attempts + 1
    requires quiet ==> db.rows == rows0 && seen == rows0[outbox.key] && seen.status == Processing
    requires quiet ==> number !in log && db.attempts[outbox.key] == WithMark(log, number, InProgress)
    modifies db, outbox
    ensures db.Valid() && Leads(db.cfg, s0, db.State())
    ensures quiet ==>
              outbox.key in db.attempts && Worked(db.cfg, rows0, log, db.rows, db.attempts[outbox.key], outbox.key, a)
  {
    SeeThrough(db, outbox, number, a, i, seen, s0, quiet);
    if quiet {
      WorkedNow(db.cfg, rows0, log, db.rows, db.attempts[outbox.key], outbox.key, a);
    }
  }

  /** From the claim on: refresh, insert the attempt row, and see the attempt through. */
  method WorkOn(db: Database, outbox: NotificationOutbox, a: Surroundings, ghost i: nat, ghost stale: Row,
                ghost s0: Sys, ghost quiet: bool)
    requires At(db, outbox, i, Claimed, stale) && Leads(db.cfg, s0, db.State()) && Sensible(a)
    requires db.rows[outbox.key].status == Processing || !quiet
    modifies db, outbox
    ensures db.Valid() && Leads(db.cfg, s0, db.State())
    ensures quiet ==> outbox.key in db.attempts
    ensures quiet ==>
              Worked(db.cfg, old(db.rows), old(db.attempts[outbox.key]), db.rows, db.attempts[outbox.key], outbox.key,
                  a)
  {
    ghost var rows0, log := db.rows, db.attempts[outbox.key];
    var created, number, seen := RefreshAndInsert(db, outbox, i, stale, s0, quiet);
    assert quiet ==>
        db.rows == rows0 && seen == rows0[outbox.key] && db.attempts[outbox.key] == Opened(log, number, created);
    if !created {
      if quiet {
        WorkedInVain(db.cfg, rows0, log, db.rows, db.attempts[outbox.key], outbox.key, a);
      }
      return;  // the unique constraint raised
    }
    Conclude(db, outbox, number, a, i, seen, s0, quiet, rows0, log);
  }

  /**
    The worker function. Whatever others do between its statements, the whole execution is a run of the system;
    undisturbed, it claims the row, makes at most one attempt, and stores its conclusion.
   */
  method ProcessNotification(db: Database, k: Key, a: Surroundings, ghost quiet: bool)
    requires db.Valid() && Sensible(a) && (k in db.rows ==> db.messages[k] > 0)
    modifies db
    ensures db.Valid() && Leads(db.cfg, old(db.State()), db.State())
    ensures quiet && k in old(db.rows) ==>
            k in db.attempts
            && Undisturbed(db.cfg, old(db.rows), old(db.attempts[k]), db.rows, db.attempts[k], k, a)
    ensures quiet && k in old(db.rows) && old(db.rows[k]).status in {Queued, Pending, Retry} ==>
              k in db.rows && db.rows[k].processingAt == Some(a.claimAt)
  {
    ghost var s0 := db.State();
    LeadsNowhere(db.cfg, s0, Outsider);
    if k !in db.rows {
      return;  // outbox not found
    }
    ghost var rows0, row0 := db.rows, db.rows[k];
    var outbox, claimed, i := Begin(db, k, a, s0, quiet);
    if !claimed {
      return;  // delivered, cancelled, or claimed by another worker
    }
    Pause(db, outbox, i, Claimed, row0, s0, quiet);
    ghost var rows1, log1 := db.rows, db.attempts[k];
    WorkOn(db, outbox, a, i, row0, s0, quiet);
    if quiet {
      ClaimedAndWorked(db.cfg, rows0, rows1, log1, db.rows, db.attempts[k], k, a);
    }
  }
}
