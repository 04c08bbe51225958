/** All rows together: the engine inserts them, and a failed one may be replaced by a fallback row. */
module Systems {
  import opened Wrappers
  import opened Enums
  import opened Rows
  import opened Rules
  import Backoff
  import opened Cells
  import opened CellRuns
  import opened PatientRecovery

  /**
    What stays fixed during a run. `patient` assumes that recovery never releases a row whose worker is still
    alive.
   */
  datatype Config = Config(rules: map<string, Rule>, policy: Backoff.Policy, patient: bool)

  /** `born` remembers the configuration tables as they were when each row was inserted. */
  datatype Sys = Sys(cells: map<Key, Cell>, born: map<Key, Gates>)

  datatype Move =
    | RowMove(k: Key, e: Event)
    | Fallback(k: Key, i: nat, g: Gates, at: Time, maxAttempts: nat)
    | Emit(rule: string, p: Payload, c: Candidate, g: Gates, maxAttempts: nat)
    | RecoverAllDispatching(at: Time, timeout: Time)
    | RecoverAllProcessing(at: Time, timeout: Time)

  /** get_or_create: an existing key wins. */
  function GetOrCreate(cfg: Config, s: Sys, k: Key, row: Row, g: Gates): Sys {
    if k in s.cells then s
    else Sys(s.cells[k := NewCell(row, cfg.policy)], s.born[k := g])
  }

  predicate PatientMove(s: Sys, m: Move) {
    match m
    case RowMove(k, e) => k in s.cells ==> Patient(s.cells[k], e)
    case RecoverAllProcessing(at, timeout) => forall k :: k in s.cells ==>
        Patient(s.cells[k], RecoverProcessing(at, timeout))
    case _ => true
  }

  predicate MoveEnabled(cfg: Config, s: Sys, m: Move) {
    Possible(cfg, s, m) && (cfg.patient ==> PatientMove(s, m))
  }

  predicate Possible(cfg: Config, s: Sys, m: Move) {
    match m
    case RowMove(k, e) => k in s.cells && !e.Fall? && Enabled(s.cells[k], e)
    case Fallback(k, i, _, _, _) => k in s.cells && Enabled(s.cells[k], Fall(i))
    case Emit(r, p, c, g, _) =>
      && r in cfg.rules && cfg.rules[r].id == r
      && RuleSelected(cfg.rules[r], p) && RuleFires(g, cfg.rules[r], p) && CandidatePasses(g, cfg.rules[r], c)
    case RecoverAllDispatching(_, _) => true
    case RecoverAllProcessing(_, _) => true
  }

  function EachRow(s: Sys, e: Event): Sys
    requires e.RecoverDispatching? || e.RecoverProcessing?
  {
    s.(cells := map k | k in s.cells :: s.cells[k].(row := RecoveredRow(s.cells[k].row, e)))
  }

  function FallbackStep(cfg: Config, s: Sys, k: Key, i: nat, g: Gates, at: Time, maxAttempts: nat): Sys
    requires k in s.cells && Enabled(s.cells[k], Fall(i))
  {
    var n := s.cells[k].row.notice;
    var left := s.(cells := s.cells[k := Step(s.cells[k], Fall(i))]);
    match FallbackChannel(cfg.rules, g, n)
    case None => left
    case Some(ch) => GetOrCreate(cfg, left, FallbackKey(k, ch), FallbackRow(k, n, ch, at, maxAttempts), g)
  }

  function Next(cfg: Config, s: Sys, m: Move): Sys
    requires MoveEnabled(cfg, s, m)
  {
    match m
    case RowMove(k, e) => s.(cells := s.cells[k := Step(s.cells[k], e)])
    case Fallback(k, i, g, at, maxAttempts) => FallbackStep(cfg, s, k, i, g, at, maxAttempts)
    case Emit(r, p, c, g, maxAttempts) =>
      var rule := cfg.rules[r];
      GetOrCreate(cfg, s, EventKey(rule, p, c.recipient), EventRow(rule, p, c, maxAttempts), g)
    case RecoverAllDispatching(at, timeout) => EachRow(s, RecoverDispatching(at, timeout))
    case RecoverAllProcessing(at, timeout) => EachRow(s, RecoverProcessing(at, timeout))
  }

  predicate SysRun(cfg: Config, s: Sys, ms: seq<Move>)
    decreases |ms|
  {
    ms == [] || (MoveEnabled(cfg, s, ms[0]) && SysRun(cfg, Next(cfg, s, ms[0]), ms[1..]))
  }

  function SysAfter(cfg: Config, s: Sys, ms: seq<Move>): Sys
    requires SysRun(cfg, s, ms)
    decreases |ms|
  {
    if ms == [] then s else SysAfter(cfg, Next(cfg, s, ms[0]), ms[1..])
  }

  const EMPTY := Sys(map[], map[])

  // ---------------------------------------------------------------------------------------------
  // Every row is a run of its own
  // ---------------------------------------------------------------------------------------------

  ghost predicate Reachable(c: Cell) {
    exists c0, es :: Initial(c0) && Run(c0, es) && After(c0, es) == c
  }

  lemma ReachableStep(c: Cell, e: Event)
    requires Reachable(c) && Enabled(c, e)
    ensures Reachable(Step(c, e))
  {
    var c0, es :| Initial(c0) && Run(c0, es) && After(c0, es) == c;
    RunStep(c, e);
    RunAppend(c0, es, [e]);
    assert Run(c0, es + [e]) && After(c0, es + [e]) == Step(c, e);
  }

  lemma ReachableNew(row: Row, policy: Backoff.Policy)
    requires row == NewRow(row.notice, row.scheduledAt, row.maxAttempts)
    ensures Reachable(NewCell(row, policy))
  {
    var c := NewCell(row, policy);
    assert c == NewCell(NewRow(row.notice, row.scheduledAt, row.maxAttempts), policy);
    assert Run(c, []) && After(c, []) == c;
  }

  ghost predicate AllReachable(s: Sys) {
    forall k :: k in s.cells ==> Reachable(s.cells[k])
  }

  lemma EachReachable(s: Sys, e: Event)
    requires AllReachable(s) && (e.RecoverDispatching? || e.RecoverProcessing?)
    ensures AllReachable(EachRow(s, e))
  {
    forall k | k in s.cells
      ensures Reachable(EachRow(s, e).cells[k])
    {
      ReachableStep(s.cells[k], e);
      assert EachRow(s, e).cells[k] == Step(s.cells[k], e);
    }
  }

  lemma FallbackReachable(cfg: Config, s: Sys, k: Key, i: nat, g: Gates, at: Time, maxAttempts: nat)
    requires AllReachable(s) && k in s.cells && Enabled(s.cells[k], Fall(i))
    ensures AllReachable(FallbackStep(cfg, s, k, i, g, at, maxAttempts))
  {
    ReachableStep(s.cells[k], Fall(i));
    var n := s.cells[k].row.notice;
    match FallbackChannel(cfg.rules, g, n)
    case None =>
    case Some(ch) => ReachableNew(FallbackRow(k, n, ch, at, maxAttempts), cfg.policy);
  }

  lemma AllReachableStep(cfg: Config, s: Sys, m: Move)
    requires AllReachable(s) && MoveEnabled(cfg, s, m)
    ensures AllReachable(Next(cfg, s, m))
  {
    match m
    case RowMove(k, e) => ReachableStep(s.cells[k], e);
    case Fallback(k, i, g, at, n) => FallbackReachable(cfg, s, k, i, g, at, n);
    case Emit(r, p, c, g, n) => ReachableNew(EventRow(cfg.rules[r], p, c, n), cfg.policy);
    case RecoverAllDispatching(at, timeout) => EachReachable(s, RecoverDispatching(at, timeout));
    case RecoverAllProcessing(at, timeout) => EachReachable(s, RecoverProcessing(at, timeout));
  }

  lemma {:induction false} AllReachableRun(cfg: Config, s: Sys, ms: seq<Move>)
    requires AllReachable(s) && SysRun(cfg, s, ms)
    ensures AllReachable(SysAfter(cfg, s, ms))
    decreases |ms|
  {
    if ms != [] {
      AllReachableStep(cfg, s, ms[0]);
      AllReachableRun(cfg, Next(cfg, s, ms[0]), ms[1..]);
    }
  }

  // ---------------------------------------------------------------------------------------------
  // Fallback rows
  // ---------------------------------------------------------------------------------------------

  /** A row that an event created, or the one fallback of such a row, allowed by its own channel's gates. */
  ghost predicate WellBorn(cfg: Config, s: Sys, k: Key)
    requires k in s.cells
  {
    var n := s.cells[k].row.notice;
    && k in s.born
    && n.rule in cfg.rules
    && Admitted(s.born[k], cfg.rules[n.rule], n.channel, n.recipient)
    && n.identity == Address(n.recipient, n.channel) != ""
    && match n.fallbackOf
       case None => n.channel == cfg.rules[n.rule].channel
       case Some(o) =>
         && o in s.cells
         && k == FallbackKey(o, n.channel)
         && cfg.rules[n.rule].fallback == Some(n.channel)
         && var on := s.cells[o].row.notice;
            && on.fallbackOf == None && on.channel != n.channel
            && on.rule == n.rule && on.recipient == n.recipient && on.body == n.body
  }

  ghost predicate AllWellBorn(cfg: Config, s: Sys) {
    forall k :: k in s.cells ==> WellBorn(cfg, s, k)
  }

  /** Rows are only added, and no stored notice changes. */
  ghost predicate Grows(s: Sys, t: Sys) {
    && s.cells.Keys <= t.cells.Keys
    && (forall k :: k in s.cells ==> t.cells[k].row.notice == s.cells[k].row.notice)
    && (forall k :: k in s.cells && k in s.born ==> k in t.born && t.born[k] == s.born[k])
  }

  lemma StepFrame(c: Cell, e: Event)
    requires Enabled(c, e)
    ensures Step(c, e).row.notice == c.row.notice
    ensures Step(c, e).row.maxAttempts == c.row.maxAttempts && Step(c, e).policy == c.policy
  {
  }

  lemma RowGrows(s: Sys, k: Key, e: Event)
    requires k in s.cells && Enabled(s.cells[k], e)
    ensures Grows(s, s.(cells := s.cells[k := Step(s.cells[k], e)]))
  {
    StepFrame(s.cells[k], e);
  }

  lemma EachGrows(s: Sys, e: Event)
    requires e.RecoverDispatching? || e.RecoverProcessing?
    ensures Grows(s, EachRow(s, e))
  {
  }

  lemma NextGrows(cfg: Config, s: Sys, m: Move)
    requires MoveEnabled(cfg, s, m)
    ensures Grows(s, Next(cfg, s, m))
  {
    match m
    case RowMove(k, e) => RowGrows(s, k, e);
    case Fallback(k, i, _, _, _) => RowGrows(s, k, Fall(i));
    case Emit(_, _, _, _, _) =>
    case RecoverAllDispatching(at, timeout) => EachGrows(s, RecoverDispatching(at, timeout));
    case RecoverAllProcessing(at, timeout) => EachGrows(s, RecoverProcessing(at, timeout));
  }

  lemma GrowsKeepsBirth(cfg: Config, s: Sys, t: Sys, k: Key)
    requires Grows(s, t) && k in s.cells && WellBorn(cfg, s, k)
    ensures WellBorn(cfg, t, k)
  {
  }

  /** Only two moves insert a row, and both insert a well-born one. */
  lemma InsertedWellBorn(cfg: Config, s: Sys, m: Move, k: Key)
    requires AllWellBorn(cfg, s) && MoveEnabled(cfg, s, m)
    requires k in Next(cfg, s, m).cells && k !in s.cells
    ensures WellBorn(cfg, Next(cfg, s, m), k)
  {
    NextGrows(cfg, s, m);
    if m.Fallback? {
      assert WellBorn(cfg, s, m.k);
    }
  }

  lemma WellBornStep(cfg: Config, s: Sys, m: Move)
    requires AllWellBorn(cfg, s) && MoveEnabled(cfg, s, m)
    ensures AllWellBorn(cfg, Next(cfg, s, m))
  {
    NextGrows(cfg, s, m);
    forall k | k in Next(cfg, s, m).cells
      ensures WellBorn(cfg, Next(cfg, s, m), k)
    {
      if k in s.cells {
        GrowsKeepsBirth(cfg, s, Next(cfg, s, m), k);
      } else {
        InsertedWellBorn(cfg, s, m, k);
      }
    }
  }

  lemma {:induction false} WellBornRun(cfg: Config, s: Sys, ms: seq<Move>)
    requires AllWellBorn(cfg, s) && SysRun(cfg, s, ms)
    ensures AllWellBorn(cfg, SysAfter(cfg, s, ms))
    decreases |ms|
  {
    if ms != [] {
      WellBornStep(cfg, s, ms[0]);
      WellBornRun(cfg, Next(cfg, s, ms[0]), ms[1..]);
    }
  }

  /**
    In every run with fixed rules: a fallback row's original is not itself a fallback, a row has at
    most one fallback however often it fails, and the fallback uses another channel.
   */
  lemma FallbackNeverChainsNorMultiplies(cfg: Config, ms: seq<Move>)
    requires SysRun(cfg, EMPTY, ms)
    ensures var t := SysAfter(cfg, EMPTY, ms).cells;
      && (forall f :: f in t && t[f].row.notice.fallbackOf.Some? ==>
            var o := t[f].row.notice.fallbackOf.value;
            o in t && t[o].row.notice.fallbackOf.None? && t[o].row.notice.channel != t[f].row.notice.channel)
      && (forall f, g :: f in t && g in t ==>
            t[f].row.notice.fallbackOf.Some? && t[f].row.notice.fallbackOf == t[g].row.notice.fallbackOf ==> f == g)
  {
    WellBornRun(cfg, EMPTY, ms);
    var s := SysAfter(cfg, EMPTY, ms);
    forall f | f in s.cells && s.cells[f].row.notice.fallbackOf.Some?
      ensures WellBorn(cfg, s, f)
    {
    }
  }

  /**
    Every row ever inserted, an event's or a fallback, was allowed for its own channel by the tables as they were
    then: the settings row that counts has the channel on, no preference row of the recipient refuses, and a
    marketing row's recipient has one.
   */
  lemma EveryRowWasAdmitted(cfg: Config, ms: seq<Move>)
    requires SysRun(cfg, EMPTY, ms)
    ensures var s := SysAfter(cfg, EMPTY, ms);
      forall k :: k in s.cells ==>
        var n := s.cells[k].row.notice;
        && k in s.born && n.rule in cfg.rules
        && var g, rule := s.born[k], cfg.rules[n.rule];
           var own := PreferenceKey(rule.entity, n.recipient.kind, n.recipient.key, n.channel, rule.category);
           && (if rule.branch != None && (rule.entity, rule.branch) in g.settings
               then n.channel in g.settings[(rule.entity, rule.branch)]
               else (rule.entity, None) in g.settings && n.channel in g.settings[(rule.entity, None)])
           && (own in g.preferences ==> g.preferences[own])
           && (rule.category == Marketing ==> own in g.preferences)
  {
    WellBornRun(cfg, EMPTY, ms);
    var s := SysAfter(cfg, EMPTY, ms);
    forall k | k in s.cells
      ensures WellBorn(cfg, s, k)
      ensures MayUse(s.born[k], cfg.rules[s.cells[k].row.notice.rule], s.cells[k].row.notice.channel,
                s.cells[k].row.notice.recipient)
    {
      var n := s.cells[k].row.notice;
      MayUseExactly(s.born[k], cfg.rules[n.rule], n.channel, n.recipient);
    }
  }

  /** What every run of the system keeps. */
  ghost predicate Sound(cfg: Config, s: Sys) {
    AllReachable(s) && AllWellBorn(cfg, s)
  }

  // ---------------------------------------------------------------------------------------------
  // Runs end to end
  // ---------------------------------------------------------------------------------------------

  lemma {:induction false} SysAppend(cfg: Config, s: Sys, ms: seq<Move>, ns: seq<Move>)
    requires SysRun(cfg, s, ms) && SysRun(cfg, SysAfter(cfg, s, ms), ns)
    ensures SysRun(cfg, s, ms + ns) && SysAfter(cfg, s, ms + ns) == SysAfter(cfg, SysAfter(cfg, s, ms), ns)
    decreases |ms|
  {
    if ms == [] {
      assert ms + ns == ns;
    } else {
      assert (ms + ns)[1..] == ms[1..] + ns;
      SysAppend(cfg, Next(cfg, s, ms[0]), ms[1..], ns);
    }
  }

  lemma OneMove(cfg: Config, s: Sys, ms: seq<Move>)
    requires |ms| == 1 && MoveEnabled(cfg, s, ms[0])
    ensures SysRun(cfg, s, ms) && SysAfter(cfg, s, ms) == Next(cfg, s, ms[0])
  {
    var t := Next(cfg, s, ms[0]);
    assert ms[1..] == [];
    assert SysRun(cfg, t, ms[1..]) && SysAfter(cfg, t, ms[1..]) == t;
  }
}
