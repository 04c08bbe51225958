/**
  When a failed row can still get its fallback: a crash between storing FAILED and offering the other channel
  loses it.
 */
module Fallbacks {
  import opened Wrappers
  import opened Enums
  import opened Rows
  import opened Rules
  import opened Cells
  import opened CellInvariant
  import opened CellRuns
  import opened Systems
  import opened SystemRuns

  ghost predicate HasFallback(s: Sys, k: Key) {
    exists f :: f in s.cells && s.cells[f].row.notice.fallbackOf == Some(k)
  }

  /** Some worker has stored FAILED and is about to offer the fallback channel. */
  ghost predicate SomeoneFalls(c: Cell) {
    exists i :: 0 <= i < |c.agents.workers| && c.agents.workers[i].pc.Falling?
  }

  /** Some run in which the row is not retried by hand gives it a fallback row. */
  ghost predicate CanGetFallback(cfg: Config, s: Sys, k: Key) {
    exists ms :: SysRun(cfg, s, ms) && RowMove(k, ManualRetry) !in ms && HasFallback(SysAfter(cfg, s, ms), k)
  }

  /** FAILED with the fallback channel `ch`, and no fallback row made or to be made. */
  ghost predicate Missed(s: Sys, k: Key, ch: Channel) {
    && k in s.cells && s.cells[k].row.status == Failed
    && !HasFallback(s, k)
    && (FallbackKey(k, ch) in s.cells || !SomeoneFalls(s.cells[k]))
  }

  /** Of a failed row nobody starts to fall any more. */
  lemma NobodyStartsFalling(c: Cell, e: Event)
    requires Inv(c) && Enabled(c, e) && c.row.status == Failed && e != ManualRetry
    ensures Step(c, e).row == c.row
    ensures SomeoneFalls(Step(c, e)) ==> SomeoneFalls(c)
  {
    FinalStep(c, e);
    var d := Step(c, e);
    if Quiet(e) {
      QuietIsQuiet(c, e);
    } else {
      assert WorkerOk(c, c.agents.workers[e.i]);
      assert !d.agents.workers[e.i].pc.Falling?;
    }
    if i :| 0 <= i < |d.agents.workers| && d.agents.workers[i].pc.Falling? {
      assert i < |c.agents.workers| && c.agents.workers[i].pc.Falling?;
    }
  }

  /** A new row is an event's, or the fallback of a row that a worker was falling from, under that row's key. */
  lemma NewRowsNotice(cfg: Config, s: Sys, m: Move, f: Key, ch: Channel, k: Key)
    requires MoveEnabled(cfg, s, m) && f in Next(cfg, s, m).cells && f !in s.cells
    requires Next(cfg, s, m).cells[f].row.notice.fallbackOf == Some(k)
    requires k in s.cells && FallbackOption(cfg, s.cells[k].row.notice) == Some(ch)
    ensures f == FallbackKey(k, ch) && SomeoneFalls(s.cells[k])
  {
    if m.Fallback? {
      assert s.cells[m.k].agents.workers[m.i].pc.Falling?;
    }
  }

  /** The channel the row's rule names for the case of failure. */
  function FallbackOption(cfg: Config, n: Notice): Option<Channel> {
    if n.rule in cfg.rules then cfg.rules[n.rule].fallback else None
  }

  lemma StaysFailed(cfg: Config, s: Sys, m: Move, k: Key)
    requires AllReachable(s) && MoveEnabled(cfg, s, m) && m != RowMove(k, ManualRetry)
    requires k in s.cells && s.cells[k].row.status == Failed
    ensures k in Next(cfg, s, m).cells && Next(cfg, s, m).cells[k].row == s.cells[k].row
    ensures SomeoneFalls(Next(cfg, s, m).cells[k]) ==> SomeoneFalls(s.cells[k])
  {
    MoveProjects(cfg, s, m, k);
    ReachableInv(s.cells[k]);
    if EventsOf(m, k) != [] {
      NobodyStartsFalling(s.cells[k], EventsOf(m, k)[0]);
    }
  }

  lemma MissedStep(cfg: Config, s: Sys, m: Move, k: Key, ch: Channel)
    requires AllReachable(s) && MoveEnabled(cfg, s, m) && m != RowMove(k, ManualRetry)
    requires Missed(s, k, ch) && FallbackOption(cfg, s.cells[k].row.notice) == Some(ch)
    ensures Missed(Next(cfg, s, m), k, ch)
    ensures Next(cfg, s, m).cells[k].row.notice == s.cells[k].row.notice
  {
    var t := Next(cfg, s, m);
    StaysFailed(cfg, s, m, k);
    NextGrows(cfg, s, m);
    forall f | f in t.cells && f !in s.cells && t.cells[f].row.notice.fallbackOf == Some(k)
      ensures f == FallbackKey(k, ch) && SomeoneFalls(s.cells[k])
    {
      NewRowsNotice(cfg, s, m, f, ch, k);
    }
  }

  lemma {:induction false} MissedForever(cfg: Config, s: Sys, ms: seq<Move>, k: Key, ch: Channel)
    requires AllReachable(s) && SysRun(cfg, s, ms) && RowMove(k, ManualRetry) !in ms
    requires Missed(s, k, ch) && FallbackOption(cfg, s.cells[k].row.notice) == Some(ch)
    ensures !HasFallback(SysAfter(cfg, s, ms), k)
    decreases |ms|
  {
    if ms != [] {
      assert ms[0] in ms;
      MissedStep(cfg, s, ms[0], k, ch);
      AllReachableStep(cfg, s, ms[0]);
      MissedForever(cfg, Next(cfg, s, ms[0]), ms[1..], k, ch);
    }
  }

  lemma FallNow(cfg: Config, s: Sys, k: Key, i: nat, g: Gates, ch: Channel)
    requires k in s.cells && Enabled(s.cells[k], Fall(i)) && FallbackKey(k, ch) !in s.cells
    requires FallbackChannel(cfg.rules, g, s.cells[k].row.notice) == Some(ch)
    ensures CanGetFallback(cfg, s, k)
  {
    var m := Fallback(k, i, g, 0.0, 1);
    OneMove(cfg, s, [m]);
    var t := SysAfter(cfg, s, [m]);
    assert FallbackKey(k, ch) in t.cells;
    assert t.cells[FallbackKey(k, ch)].row.notice.fallbackOf == Some(k);
    assert HasFallback(t, k);
  }

  /**
    The exact condition: a FAILED row whose fallback channel the gates let through can get its fallback row
    without a manual retry if and only if it has one, or its key is free and a worker that stored FAILED is
    still about to offer it. A worker that dies in between loses it.
   */
  lemma FallbackAheadExactly(cfg: Config, s: Sys, k: Key, g: Gates, ch: Channel)
    requires AllReachable(s) && k in s.cells && s.cells[k].row.status == Failed
    requires var n := s.cells[k].row.notice;
      && n.rule in cfg.rules && cfg.rules[n.rule].fallback == Some(ch) && n.fallbackOf == None && ch != n.channel
      && MayUse(g, cfg.rules[n.rule], ch, n.recipient)
      && (if ch == Email then n.recipient.email != "" else n.recipient.phone != "")
    ensures CanGetFallback(cfg, s, k) <==>
            HasFallback(s, k) || (FallbackKey(k, ch) !in s.cells && SomeoneFalls(s.cells[k]))
  {
    FallbackChannelExactly(cfg.rules, g, s.cells[k].row.notice, ch);
    if HasFallback(s, k) {
      assert SysRun(cfg, s, []) && SysAfter(cfg, s, []) == s;
    } else if FallbackKey(k, ch) !in s.cells && SomeoneFalls(s.cells[k]) {
      var i :| 0 <= i < |s.cells[k].agents.workers| && s.cells[k].agents.workers[i].pc.Falling?;
      FallNow(cfg, s, k, i, g, ch);
    } else if CanGetFallback(cfg, s, k) {
      var ms :| SysRun(cfg, s, ms) && RowMove(k, ManualRetry) !in ms && HasFallback(SysAfter(cfg, s, ms), k);
      MissedForever(cfg, s, ms, k, ch);
    }
  }
}
