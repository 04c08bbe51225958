/** What holds after, and along, every run of one outbox row. */
module CellRuns {
  import opened Wrappers
  import opened Enums
  import opened Rows
  import Backoff
  import opened Cells
  import opened CellInvariant

  lemma {:induction false} RunKeeps(c: Cell, es: seq<Event>)
    requires Inv(c) && Run(c, es)
    ensures Inv(After(c, es))
    decreases |es|
  {
    if es != [] {
      StepKeeps(c, es[0]);
      RunKeeps(Step(c, es[0]), es[1..]);
    }
  }

  lemma {:induction false} RunAppend(c: Cell, es: seq<Event>, fs: seq<Event>)
    requires Run(c, es) && Run(After(c, es), fs)
    ensures Run(c, es + fs) && After(c, es + fs) == After(After(c, es), fs)
    decreases |es|
  {
    if es == [] {
      assert es + fs == fs;
    } else {
      assert (es + fs)[1..] == es[1..] + fs;
      RunAppend(Step(c, es[0]), es[1..], fs);
    }
  }

  lemma RunStep(c: Cell, e: Event)
    requires Enabled(c, e)
    ensures Run(c, [e]) && After(c, [e]) == Step(c, e)
  {
    assert [e][1..] == [];
  }

  /** The stored status before, between and after the events of a run. */
  function Statuses(c: Cell, es: seq<Event>): (s: seq<Status>)
    requires Run(c, es)
    ensures |s| == |es| + 1
    ensures s[0] == c.row.status
    decreases |es|
  {
    if es == [] then [c.row.status] else [c.row.status] + Statuses(Step(c, es[0]), es[1..])
  }

  lemma {:induction false} LastStatus(c: Cell, es: seq<Event>)
    requires Run(c, es)
    ensures Statuses(c, es)[|es|] == After(c, es).row.status
    decreases |es|
  {
    if es != [] {
      LastStatus(Step(c, es[0]), es[1..]);
    }
  }

  // ---------------------------------------------------------------------------------------------
  // Counting
  // ---------------------------------------------------------------------------------------------

  lemma {:induction false} DistinctBetween(s: seq<nat>, lo: nat, hi: int)
    requires lo <= hi + 1
    requires Distinct(s) && forall n :: n in s ==> lo <= n <= hi
    ensures |s| <= hi + 1 - lo
    decreases hi
  {
    if s == [] {
      return;
    }
    assert s[0] in s;
    if hi in s {
      var k :| 0 <= k < |s| && s[k] == hi;
      var t := s[..k] + s[k + 1..];
      forall n | n in t
        ensures lo <= n <= hi - 1
      {
        assert n in s;
      }
      DistinctBetween(t, lo, hi - 1);
    } else {
      DistinctBetween(s, lo, hi - 1);
    }
  }

  // ---------------------------------------------------------------------------------------------
  // Every interleaving: slow workers recovered too early, duplicate messages, crashes anywhere
  // ---------------------------------------------------------------------------------------------

  /**
    The attempt rows are numbered 1..m without gaps, m being `attempts` or one more; at most one
    worker holds an attempt not yet counted; the provider is called at most once per number.
   */
  lemma AttemptNumbers(c: Cell, es: seq<Event>)
    requires Initial(c) && Run(c, es)
    ensures var d := After(c, es);
      && Top(d) - 1 <= d.row.attempts <= Top(d)
      && (forall n :: n in d.log <==> 1 <= n <= Top(d))
      && OneHolder(d)
      && (forall i :: 0 <= i < |d.agents.workers| && Holds(d.agents.workers[i]) ==>
            Number(d.agents.workers[i]) == d.row.attempts + 1)
      && Distinct(d.agents.history.calls)
      && |d.agents.history.calls| <= d.row.attempts + 1
  {
    InitialInv(c);
    RunKeeps(c, es);
    var d := After(c, es);
    DistinctBetween(d.agents.history.calls, 1, Top(d));
    forall i | 0 <= i < |d.agents.workers| && Holds(d.agents.workers[i])
      ensures Number(d.agents.workers[i]) == d.row.attempts + 1
    {
      assert WorkerOk(d, d.agents.workers[i]);
    }
  }

  lemma AttemptsGrowByOne(c: Cell, e: Event)
    requires Inv(c) && Enabled(c, e)
    ensures c.row.attempts <= Step(c, e).row.attempts <= c.row.attempts + 1
    ensures c.log.Keys <= Step(c, e).log.Keys
  {
    if e.Save? {
      assert WorkerOk(c, c.agents.workers[e.i]);
    }
  }

  /** `attempts` never decreases and no attempt row disappears. */
  lemma {:induction false} AttemptsNeverDecrease(c: Cell, es: seq<Event>)
    requires Inv(c) && Run(c, es)
    ensures c.row.attempts <= After(c, es).row.attempts
    ensures c.log.Keys <= After(c, es).log.Keys
    decreases |es|
  {
    if es != [] {
      AttemptsGrowByOne(c, es[0]);
      StepKeeps(c, es[0]);
      AttemptsNeverDecrease(Step(c, es[0]), es[1..]);
    }
  }

  /**
    A row in a final status is changed by nothing but the manual retry of a failed row, although
    the worker's last save is unconditional and may use a stale copy of the row.
   */
  lemma FinalStep(c: Cell, e: Event)
    requires Inv(c) && Enabled(c, e) && Final(c.row.status)
    ensures Step(c, e).row == c.row || (c.row.status == Failed && e == ManualRetry)
  {
    if e.Save? {
      assert WorkerOk(c, c.agents.workers[e.i]);
    }
  }

  /** Once stored, SENT is never overwritten: the whole row stays as it is. */
  lemma {:induction false} SentIsForever(c: Cell, es: seq<Event>)
    requires Inv(c) && Run(c, es) && c.row.status == Sent
    ensures After(c, es).row == c.row
    decreases |es|
  {
    if es != [] {
      FinalStep(c, es[0]);
      StepKeeps(c, es[0]);
      SentIsForever(Step(c, es[0]), es[1..]);
    }
  }

  /** FAILED is left by a manual retry and by nothing else. */
  lemma {:induction false} FailedUntilManualRetry(c: Cell, es: seq<Event>)
    requires Inv(c) && Run(c, es) && c.row.status == Failed
    ensures ManualRetry in es || After(c, es).row == c.row
    decreases |es|
  {
    if es != [] && ManualRetry !in es {
      FinalStep(c, es[0]);
      StepKeeps(c, es[0]);
      FailedUntilManualRetry(Step(c, es[0]), es[1..]);
    }
  }

  /** As the history shows it: the row is as it was, unless manual retries were counted since. */
  lemma {:induction false} FailedUnlessRetried(c: Cell, es: seq<Event>)
    requires Inv(c) && Run(c, es)
    ensures c.agents.history.manualRetries <= After(c, es).agents.history.manualRetries
    ensures c.row.status == Failed && After(c, es).agents.history.manualRetries == c.agents.history.manualRetries ==>
              After(c, es).row == c.row
    decreases |es|
  {
    if es != [] {
      if c.row.status == Failed {
        FinalStep(c, es[0]);
      }
      StepKeeps(c, es[0]);
      FailedUnlessRetried(Step(c, es[0]), es[1..]);
    }
  }

  lemma {:induction false} MaxAttemptsFixed(c: Cell, es: seq<Event>)
    requires Run(c, es)
    ensures After(c, es).row.maxAttempts == c.row.maxAttempts
    ensures After(c, es).row.notice == c.row.notice
    ensures After(c, es).policy == c.policy
    decreases |es|
  {
    if es != [] {
      MaxAttemptsFixed(Step(c, es[0]), es[1..]);
    }
  }

  /**
    `attempts` stays within the allowance plus one per manual retry, and strictly below it while the
    row is anything but sent or failed. An allowance of 0 still lets one attempt happen.
   */
  lemma AttemptBudgetHolds(c: Cell, es: seq<Event>)
    requires Initial(c) && Run(c, es)
    ensures var d := After(c, es);
            var budget := (if c.row.maxAttempts == 0 then 1 else c.row.maxAttempts) + d.agents.history.manualRetries;
      && d.row.attempts <= budget
      && (d.row.status != Sent && d.row.status != Failed ==> d.row.attempts < budget)
      && |d.agents.history.calls| <= budget + 1
  {
    InitialInv(c);
    RunKeeps(c, es);
    MaxAttemptsFixed(c, es);
    AttemptNumbers(c, es);
  }

  /** The attempt rows tell the truth: failures up to the last counted one, which succeeded iff the row is sent. */
  lemma AuditTrail(c: Cell, es: seq<Event>)
    requires Initial(c) && Run(c, es)
    ensures var d := After(c, es);
      && (forall n :: 1 <= n <= d.row.attempts ==> n in d.log)
      && (forall n :: 1 <= n < d.row.attempts ==> d.log[n] == Unsuccessful)
      && (d.row.attempts >= 1 ==>
            d.log[d.row.attempts] == if d.row.status == Sent then Succeeded else Unsuccessful)
      && (d.row.status == Sent ==> d.row.attempts >= 1 && d.row.attempts in d.agents.history.delivered)
  {
    InitialInv(c);
    RunKeeps(c, es);
  }

  /**
    Even when recovery releases rows whose workers are still alive, a recipient gets at most two
    copies over the whole run, and at most one unless the row is stored as SENT.
   */
  lemma AtMostTwoDeliveries(c: Cell, es: seq<Event>)
    requires Initial(c) && Run(c, es)
    ensures |After(c, es).agents.history.delivered| <= 2
    ensures After(c, es).row.status != Sent ==> |After(c, es).agents.history.delivered| <= 1
  {
    InitialInv(c);
    RunKeeps(c, es);
    var d := After(c, es);
    DistinctBetween(d.agents.history.delivered,
                    if d.row.status == Sent then d.row.attempts else d.row.attempts + 1, d.row.attempts + 1);
  }

  /**
    All the backoff ever stored for a row, manual retries included, is at most 1.1 times the smaller
    of base * (2^(n-1) - 1) and (n - 1) * cap, n being its maximum number of attempts.
   */
  lemma TotalBackoff(c: Cell, es: seq<Event>)
    requires Initial(c) && Run(c, es) && c.row.maxAttempts >= 1
    ensures var n := c.row.maxAttempts;
            var waited := After(c, es).agents.history.waited;
      && waited <= 1.1 * (c.policy.base * (Backoff.Pow2(n - 1) - 1)) as real
      && waited <= 1.1 * ((n - 1) * c.policy.cap) as real
  {
    InitialInv(c);
    RunKeeps(c, es);
    MaxAttemptsFixed(c, es);
    var n := c.row.maxAttempts;
    Backoff.WaitBoundGrows(c.policy, Waits(After(c, es)), n - 1);
    Backoff.WaitBoundClosed(c.policy, n - 1);
  }

  /** A dispatching row always carries its claim time, and so does a processing row. */
  lemma ClaimTimesAreSet(c: Cell, es: seq<Event>)
    requires Initial(c) && Run(c, es)
    ensures After(c, es).row.status == Dispatching ==> After(c, es).row.dispatchingAt.Some?
    ensures After(c, es).row.status == Processing ==> After(c, es).row.processingAt.Some?
  {
    InitialInv(c);
    RunKeeps(c, es);
  }

  /**
    A worker's claim holds: while every recovery's cutoff lies before the claim time, no run changes the claimed
    row in any column until some worker saves it.
   */
  lemma {:induction false} ClaimHolds(c: Cell, es: seq<Event>, claimedAt: Time)
    requires Run(c, es) && c.row.status == Processing && c.row.processingAt == Some(claimedAt)
    requires forall e :: e in es && e.RecoverProcessing? ==> e.at - e.timeout < claimedAt
    requires forall e :: e in es ==> !e.Save?
    ensures After(c, es).row == c.row
    decreases |es|
  {
    if es != [] {
      assert es[0] in es;
      assert Step(c, es[0]).row == c.row;
      ClaimHolds(Step(c, es[0]), es[1..], claimedAt);
    }
  }

  /** At its cutoff a recovery releases it. */
  lemma ClaimEnds(c: Cell, at: Time, timeout: Time)
    requires c.row.status == Processing && c.row.processingAt.Some? && c.row.processingAt.value <= at - timeout
    ensures Enabled(c, RecoverProcessing(at, timeout))
    ensures Step(c, RecoverProcessing(at, timeout)).row ==
            c.row.(status := Retry, processingAt := None, nextRetryAt := None)
  {
  }
}
