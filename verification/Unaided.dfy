/**
  When a row can still be delivered without a person's help.

  Recovery is documented as leaving every stuck row in a state the periodic tasks can continue from.
  This is exactly when they can: no manual retry is allowed in the run.
 */
module Unaided {
  import opened Enums
  import opened Rows
  import opened Cells
  import opened CellInvariant
  import opened Recoverability

  /** Some run without a manual retry ends with SENT stored. */
  ghost predicate CanBeSentUnaided(c: Cell) {
    exists es :: Run(c, es) && ManualRetry !in es && After(c, es).row.status == Sent
  }

  /** Storing this outcome is allowed and leads on: to SENT, or to RETRY with the attempt counted. */
  predicate LeadsOn(w: Worker, o: Outcome) {
    Lands(w, o) && (o == Accepted || (o == Temporary && Target(o, Number(w), w.seen.maxAttempts) == Retry))
  }

  predicate SomeSendLeadsOn(w: Worker) {
    LeadsOn(w, Accepted) || LeadsOn(w, Temporary)
  }

  /** This worker can still bring the row on. */
  predicate MayLeadOn(c: Cell, w: Worker) {
    match w.pc
    case Refreshed => Number(w) !in c.log && SomeSendLeadsOn(w)
    case Holding => SomeSendLeadsOn(w)
    case Calling => SomeSendLeadsOn(w)
    case Returned(o) => LeadsOn(w, o)
    case Recorded(o) => LeadsOn(w, o)
    case _ => false
  }

  ghost predicate SomeoneMayLeadOn(c: Cell) {
    exists i :: 0 <= i < |c.agents.workers| && MayLeadOn(c, c.agents.workers[i])
  }

  ghost predicate SomeoneReads(c: Cell) {
    exists i :: 0 <= i < |c.agents.workers| && c.agents.workers[i].pc.Read?
  }

  ghost predicate SomeoneWillPublish(c: Cell) {
    exists j :: 0 <= j < |c.agents.dispatchers| && c.agents.dispatchers[j] == Won
  }

  /** A queued row needs a message, a worker that took one, or a dispatcher about to publish one. */
  ghost predicate MessageAhead(c: Cell) {
    c.messages > 0 || SomeoneReads(c) || SomeoneWillPublish(c)
  }

  /** The periodic tasks can pick the row up, or its message is still on the way. */
  ghost predicate Continues(c: Cell) {
    Open(c) && c.row.status != Failed && (c.row.status == Queued ==> MessageAhead(c))
  }

  // ---------------------------------------------------------------------------------------------
  // Delivering without help
  // ---------------------------------------------------------------------------------------------

  lemma DeliverContinuing(c: Cell) returns (d: Cell)
    requires Stamped(c) && Continues(c) && c.row.status != Sent
    ensures Reaches(c, d) && d.row.status == Sent && d.agents.history.manualRetries == c.agents.history.manualRetries
  {
    Stay(c);
    match c.row.status
    case Pending => d := DeliverDispatchable(c, c);
    case Retry => d := DeliverDispatchable(c, c);
    case Dispatching =>
      var e := RecoverDispatching(c.row.dispatchingAt.value, 0.0);
      Go(c, c, e);
      d := DeliverDispatchable(c, Step(c, e));
    case Processing =>
      var e := RecoverProcessing(c.row.processingAt.value, 0.0);
      Go(c, c, e);
      d := DeliverDispatchable(c, Step(c, e));
    case Queued => d := DeliverQueued(c);
  }

  lemma DeliverQueued(c: Cell) returns (d: Cell)
    requires c.row.status == Queued && c.row.attempts + 1 !in c.log && MessageAhead(c)
    ensures Reaches(c, d) && d.row.status == Sent && d.agents.history.manualRetries == c.agents.history.manualRetries
  {
    Stay(c);
    if c.messages > 0 {
      d := DeliverMessage(c, c);
    } else if SomeoneReads(c) {
      var i :| 0 <= i < |c.agents.workers| && c.agents.workers[i].pc.Read?;
      d := DeliverRead(c, c, i);
    } else {
      var j :| 0 <= j < |c.agents.dispatchers| && c.agents.dispatchers[j] == Won;
      Go(c, c, Publish(j));
      d := DeliverMessage(c, PublishStep(c, j));
    }
  }

  function Rank(pc: Pc): nat {
    match pc
    case Refreshed => 4
    case Holding => 3
    case Calling => 2
    case Returned(_) => 1
    case _ => 0
  }

  lemma LeadInsert(b: Cell, c: Cell, i: nat) returns (d: Cell)
    requires Inv(c) && Reaches(b, c) && WorkerAt(c, i) && PcOf(c, i).Refreshed? && MayLeadOn(c, c.agents.workers[i])
    ensures Inv(d) && Reaches(b, d) && WorkerAt(d, i) && MayLeadOn(d, d.agents.workers[i]) && PcOf(d, i).Holding?
    ensures d.agents.history.manualRetries == c.agents.history.manualRetries
  {
    d := InsertStep(c, i);
    Go(b, c, Insert(i));
    InsertKeeps(c, i);
  }

  /** The provider answers with an outcome that leads on. */
  lemma LeadReturn(b: Cell, c: Cell, i: nat) returns (d: Cell)
    requires Inv(c) && Reaches(b, c) && WorkerAt(c, i) && PcOf(c, i).Calling? && MayLeadOn(c, c.agents.workers[i])
    ensures Inv(d) && Reaches(b, d) && WorkerAt(d, i) && MayLeadOn(d, d.agents.workers[i]) && PcOf(d, i).Returned?
    ensures d.agents.history.manualRetries == c.agents.history.manualRetries
  {
    var o := if LeadsOn(c.agents.workers[i], Accepted) then Accepted else Temporary;
    d := ReturnStep(c, i, o);
    Go(b, c, Return(i, o));
    ReturnKeeps(c, i, o);
  }

  /** One step of a worker that may lead on and has not recorded its outcome yet. */
  lemma LeadOneStep(b: Cell, c: Cell, i: nat) returns (d: Cell)
    requires Inv(c) && Reaches(b, c) && WorkerAt(c, i) && MayLeadOn(c, c.agents.workers[i]) && !PcOf(c, i).Recorded?
    ensures Inv(d) && Reaches(b, d) && WorkerAt(d, i) && MayLeadOn(d, d.agents.workers[i])
    ensures Rank(PcOf(d, i)) < Rank(PcOf(c, i))
    ensures d.agents.history.manualRetries == c.agents.history.manualRetries
  {
    match PcOf(c, i)
    case Refreshed => d := LeadInsert(b, c, i);
    case Holding =>
      d := CallStep(c, i);
      Go(b, c, Call(i));
      CallKeeps(c, i);
    case Calling => d := LeadReturn(b, c, i);
    case Returned(_) =>
      d := RecordStep(c, i);
      Go(b, c, Record(i));
      RecordKeeps(c, i);
    case _ =>
  }

  /** A worker that may lead on does, step by step; if it stores RETRY, the next attempt is delivered. */
  lemma {:induction false} DeliverLeadingOn(b: Cell, c: Cell, i: nat) returns (d: Cell)
    requires Inv(c) && Reaches(b, c) && WorkerAt(c, i) && MayLeadOn(c, c.agents.workers[i])
    ensures Reaches(b, d) && d.row.status == Sent
    ensures d.agents.history.manualRetries == c.agents.history.manualRetries
    decreases Rank(PcOf(c, i))
  {
    if PcOf(c, i).Recorded? {
      d := StoreAndDeliver(b, c, i);
    } else {
      var c1 := LeadOneStep(b, c, i);
      d := DeliverLeadingOn(b, c1, i);
    }
  }

  lemma StoreAndDeliver(b: Cell, c: Cell, i: nat) returns (d: Cell)
    requires Inv(c) && Reaches(b, c) && WorkerAt(c, i) && PcOf(c, i).Recorded? && MayLeadOn(c, c.agents.workers[i])
    ensures Reaches(b, d) && d.row.status == Sent && d.agents.history.manualRetries == c.agents.history.manualRetries
  {
    SaverFacts(c, i);
    d := SaveStep(c, i, 0.0, 0.0);
    Go(b, c, Save(i, 0.0, 0.0));
    SaveKeeps(c, i, 0.0, 0.0);
    if d.row.status != Sent {
      d := DeliverDispatchable(b, d);
    }
  }

  /** A manual retry that is refused leaves no trace, so an unchanged count means that none was needed. */
  lemma {:induction false} RetriesNeverShrink(c: Cell, es: seq<Event>)
    requires Run(c, es)
    ensures c.agents.history.manualRetries <= After(c, es).agents.history.manualRetries
    decreases |es|
  {
    if es != [] {
      RetriesNeverShrink(Step(c, es[0]), es[1..]);
    }
  }

  lemma {:induction false} WithoutRefusedRetries(c: Cell, es: seq<Event>) returns (fs: seq<Event>)
    requires Run(c, es) && After(c, es).agents.history.manualRetries == c.agents.history.manualRetries
    ensures Run(c, fs) && ManualRetry !in fs && After(c, fs) == After(c, es)
    decreases |es|
  {
    if es == [] {
      fs := [];
    } else {
      var d := Step(c, es[0]);
      RetriesNeverShrink(d, es[1..]);
      var rest := WithoutRefusedRetries(d, es[1..]);
      if es[0] == ManualRetry {
        fs := rest;
      } else {
        fs := [es[0]] + rest;
        assert fs[1..] == rest;
      }
    }
  }

  lemma SentAloneIsUnaided(c: Cell, d: Cell)
    requires Reaches(c, d) && d.row.status == Sent && d.agents.history.manualRetries == c.agents.history.manualRetries
    ensures CanBeSentUnaided(c)
  {
    var es :| Run(c, es) && After(c, es) == d;
    var fs := WithoutRefusedRetries(c, es);
  }

  // ---------------------------------------------------------------------------------------------
  // Lost without help
  // ---------------------------------------------------------------------------------------------

  ghost predicate Lost(c: Cell) {
    c.row.status != Sent && !Continues(c) && !SomeoneMayLeadOn(c)
  }

  lemma LostQuiet(c: Cell, e: Event)
    requires Inv(c) && Enabled(c, e) && Lost(c) && Quiet(e) && e != ManualRetry
    ensures Lost(Step(c, e))
  {
    QuietIsQuiet(c, e);
    var d := Step(c, e);
    forall i | 0 <= i < |d.agents.workers|
      ensures !MayLeadOn(d, d.agents.workers[i])
      ensures i < |c.agents.workers| ==> d.agents.workers[i] == c.agents.workers[i]
    {
      if i < |c.agents.workers| {
        assert !MayLeadOn(c, c.agents.workers[i]);
      }
    }
    LostQuietRow(c, e);
  }

  /** The row's own part: no quiet event but a manual retry opens a way on. */
  lemma LostQuietRow(c: Cell, e: Event)
    requires Enabled(c, e) && Quiet(e) && e != ManualRetry && c.row.status != Sent && !Continues(c)
    ensures !Continues(Step(c, e))
  {
    var d := Step(c, e);
    if Open(c) && c.row.status == Queued {
      assert c.messages == 0;
      forall j | 0 <= j < |d.agents.dispatchers|
        ensures d.agents.dispatchers[j] != Won
      {
        assert j < |c.agents.dispatchers| ==> c.agents.dispatchers[j] != Won;
      }
    }
  }

  lemma LostSave(c: Cell, i: nat, at: Time, draw: real)
    requires Inv(c) && Lost(c) && WorkerAt(c, i) && PcOf(c, i).Recorded?
    ensures Lost(SaveStep(c, i, at, draw))
  {
    var d := SaveStep(c, i, at, draw);
    var w := c.agents.workers[i];
    assert WorkerOk(c, w) && !MayLeadOn(c, w);
    forall k | 0 <= k < |d.agents.workers|
      ensures !MayLeadOn(d, d.agents.workers[k])
    {
      assert !MayLeadOn(c, c.agents.workers[k]);
    }
    if d.row.status != Failed {
      assert d == MoveTo(c, i, Gone);
      SameWay(c, d);
    }
  }

  /** Without new readers, and with the same row, number and publishers, the way on is no wider than before. */
  lemma SameWay(c: Cell, d: Cell)
    requires !Continues(c) && d.row == c.row && c.log.Keys <= d.log.Keys && d.messages == c.messages
    requires |d.agents.workers| == |c.agents.workers| && d.agents.dispatchers == c.agents.dispatchers
    requires forall k :: 0 <= k < |c.agents.workers| && d.agents.workers[k].pc.Read? ==> c.agents.workers[k].pc.Read?
    ensures !Continues(d)
  {
  }

  lemma LostInsert(c: Cell, i: nat)
    requires Inv(c) && Lost(c) && WorkerAt(c, i) && PcOf(c, i).Refreshed?
    ensures Lost(InsertStep(c, i))
  {
    var d := InsertStep(c, i);
    forall k | 0 <= k < |d.agents.workers|
      ensures !MayLeadOn(d, d.agents.workers[k])
    {
      assert !MayLeadOn(c, c.agents.workers[k]);
    }
    SameWay(c, d);
  }

  lemma LostClaim(c: Cell, i: nat, at: Time)
    requires Lost(c) && WorkerAt(c, i) && PcOf(c, i).Read?
    ensures Lost(ClaimStep(c, i, at))
  {
    var d := ClaimStep(c, i, at);
    forall k | 0 <= k < |d.agents.workers|
      ensures !MayLeadOn(d, d.agents.workers[k])
    {
      assert !MayLeadOn(c, c.agents.workers[k]);
    }
    if !Claimable(c.row.status) {
      SameWay(c, d);
    }
  }

  /** What a worker loads from a lost row lets it store nothing that leads on. */
  lemma LostRefresh(c: Cell, i: nat)
    requires Lost(c) && WorkerAt(c, i) && PcOf(c, i).Claimed?
    ensures Lost(SetWorker(c, i, Worker(Refreshed, c.row)))
  {
    var d := SetWorker(c, i, Worker(Refreshed, c.row));
    forall k | 0 <= k < |d.agents.workers|
      ensures !MayLeadOn(d, d.agents.workers[k])
    {
      assert !MayLeadOn(c, c.agents.workers[k]);
    }
    SameWay(c, d);
  }

  /** Talking to the provider: no row, no number, no chance that it did not have before. */
  lemma LostCall(c: Cell, e: Event)
    requires Inv(c) && Enabled(c, e) && Lost(c) && (e.Call? || e.Return? || e.Record?)
    ensures Lost(Step(c, e))
  {
    var d := Step(c, e);
    assert WorkerOk(c, c.agents.workers[e.i]) && !MayLeadOn(c, c.agents.workers[e.i]);
    forall k | 0 <= k < |d.agents.workers|
      ensures !MayLeadOn(d, d.agents.workers[k])
    {
      assert !MayLeadOn(c, c.agents.workers[k]);
    }
    SameWay(c, d);
  }

  /** A worker that gives up leads nowhere. */
  lemma LostEnd(c: Cell, e: Event)
    requires Inv(c) && Enabled(c, e) && Lost(c) && (e.Reject? || e.Fall? || e.Crash?)
    ensures Lost(Step(c, e))
  {
    var d := Step(c, e);
    assert WorkerOk(c, c.agents.workers[e.i]) && !MayLeadOn(c, c.agents.workers[e.i]);
    forall k | 0 <= k < |d.agents.workers|
      ensures !MayLeadOn(d, d.agents.workers[k])
    {
      assert !MayLeadOn(c, c.agents.workers[k]);
    }
    SameWay(c, d);
  }

  lemma LostStep(c: Cell, e: Event)
    requires Inv(c) && Enabled(c, e) && Lost(c) && e != ManualRetry
    ensures Lost(Step(c, e))
  {
    if Quiet(e) {
      LostQuiet(c, e);
    } else if e.Save? {
      LostSave(c, e.i, e.at, e.draw);
    } else if e.Insert? {
      LostInsert(c, e.i);
    } else if e.Claim? {
      LostClaim(c, e.i, e.at);
    } else if e.Refresh? {
      LostRefresh(c, e.i);
    } else if e.Call? || e.Return? || e.Record? {
      LostCall(c, e);
    } else {
      LostEnd(c, e);
    }
  }

  lemma {:induction false} LostForever(c: Cell, es: seq<Event>)
    requires Inv(c) && Lost(c) && Run(c, es) && ManualRetry !in es
    ensures Lost(After(c, es))
    decreases |es|
  {
    if es != [] {
      LostStep(c, es[0]);
      StepKeeps(c, es[0]);
      LostForever(Step(c, es[0]), es[1..]);
    }
  }

  /**
    The exact condition for the periodic tasks' own promise, at every state the system can be in: the row
    can still end up SENT without a manual retry if and only if it is SENT, or its next number is free and
    it is neither cancelled nor failed nor queued with its message gone, or some live worker can still
    store SENT, or RETRY with its attempt counted.
   */
  lemma UnaidedExactly(c: Cell)
    requires Inv(c)
    ensures CanBeSentUnaided(c) <==> c.row.status == Sent || Continues(c) || SomeoneMayLeadOn(c)
  {
    if c.row.status == Sent {
      assert Run(c, []) && After(c, []) == c;
    } else if Continues(c) {
      var d := DeliverContinuing(c);
      SentAloneIsUnaided(c, d);
    } else if SomeoneMayLeadOn(c) {
      var i :| 0 <= i < |c.agents.workers| && MayLeadOn(c, c.agents.workers[i]);
      Stay(c);
      var d := DeliverLeadingOn(c, c, i);
      SentAloneIsUnaided(c, d);
    } else if CanBeSentUnaided(c) {
      var es :| Run(c, es) && ManualRetry !in es && After(c, es).row.status == Sent;
      LostForever(c, es);
    }
  }

  // ---------------------------------------------------------------------------------------------
  // Queued rows whose message is gone
  // ---------------------------------------------------------------------------------------------

  /** Queued, with no message and nobody at work on it. */
  ghost predicate Forgotten(c: Cell) {
    && c.row.status == Queued && c.messages == 0
    && (forall i :: 0 <= i < |c.agents.workers| ==> c.agents.workers[i].pc.Gone?)
    && (forall j :: 0 <= j < |c.agents.dispatchers| ==> c.agents.dispatchers[j] == Left)
  }

  /** Neither the batch nor recovery ever changes a forgotten row: only a person can. */
  lemma {:induction false} ForgottenForever(c: Cell, es: seq<Event>)
    requires Forgotten(c) && Run(c, es) && ManualRetry !in es && Cancel !in es
    ensures After(c, es) == c
    decreases |es|
  {
    if es != [] {
      assert es[0] in es;
      assert Step(c, es[0]) == c;
      ForgottenForever(c, es[1..]);
    }
  }
}
