/** The notification engine: idempotent creation of outbox rows, and the fallback of a failed one. */
module Engine {
  import opened Wrappers
  import opened Enums
  import opened Rows
  import opened Rules
  import opened Conditions
  import opened Cells
  import opened Systems
  import opened Interference
  import opened Database

  // ---------------------------------------------------------------------------------------------
  // What one event asks for
  // ---------------------------------------------------------------------------------------------

  datatype Pair = Pair(rule: Rule, candidate: Candidate)

  function CandidatesOf(candidates: map<string, seq<Candidate>>, rule: Rule): seq<Candidate> {
    if rule.id in candidates then candidates[rule.id] else []
  }

  /** The candidates of one rule that pass every gate, in order. */
  function Passing(g: Gates, rule: Rule, cs: seq<Candidate>): seq<Pair> {
    if cs == [] then []
    else (if CandidatePasses(g, rule, cs[0]) then [Pair(rule, cs[0])] else []) + Passing(g, rule, cs[1..])
  }

  /** The pairs of one selected rule: none unless its module and conditions let it fire. */
  function RulePairs(g: Gates, rule: Rule, p: Payload, cs: seq<Candidate>): seq<Pair> {
    if RuleFires(g, rule, p) then Passing(g, rule, cs) else []
  }

  /** All passing pairs of an event, rule by rule. */
  function Pairs(g: Gates, p: Payload, rules: seq<Rule>, candidates: map<string, seq<Candidate>>): seq<Pair> {
    if rules == [] then []
    else
      (if RuleSelected(rules[0], p) then RulePairs(g, rules[0], p, CandidatesOf(candidates, rules[0])) else [])
      + Pairs(g, p, rules[1..], candidates)
  }

  function PairKey(p: Payload, x: Pair): Key {
    EventKey(x.rule, p, x.candidate.recipient)
  }

  /** get_or_create for one pair. */
  function InsertOne(rows: map<Key, Row>, p: Payload, x: Pair, maxAttempts: nat): map<Key, Row> {
    if PairKey(p, x) in rows then rows
    else rows[PairKey(p, x) := EventRow(x.rule, p, x.candidate, maxAttempts)]
  }

  function InsertAll(rows: map<Key, Row>, p: Payload, pairs: seq<Pair>, maxAttempts: nat): map<Key, Row>
    decreases |pairs|
  {
    if pairs == [] then rows
    else InsertAll(InsertOne(rows, p, pairs[0], maxAttempts), p, pairs[1..], maxAttempts)
  }

  lemma {:induction false} InsertAllAppend(rows: map<Key, Row>, p: Payload, xs: seq<Pair>, ys: seq<Pair>,
                                           maxAttempts: nat)
    ensures InsertAll(rows, p, xs + ys, maxAttempts) ==
              InsertAll(InsertAll(rows, p, xs, maxAttempts), p, ys, maxAttempts)
    decreases |xs|
  {
    if xs == [] {
      assert xs + ys == ys;
    } else {
      assert (xs + ys)[1..] == xs[1..] + ys;
      InsertAllAppend(InsertOne(rows, p, xs[0], maxAttempts), p, xs[1..], ys, maxAttempts);
    }
  }

  /** One recipient more. */
  lemma InsertNext(rows: map<Key, Row>, g: Gates, rule: Rule, cs: seq<Candidate>, n: nat, p: Payload, maxAttempts: nat)
    requires n < |cs|
    ensures Passing(g, rule, cs[n..]) == Passing(g, rule, [cs[n]]) + Passing(g, rule, cs[n + 1..])
    ensures InsertAll(rows, p, Passing(g, rule, cs[n..]), maxAttempts)
         == InsertAll(InsertAll(rows, p, Passing(g, rule, [cs[n]]), maxAttempts), p, Passing(g, rule, cs[n + 1..]),
             maxAttempts)
  {
    assert cs[n..][0] == cs[n] && cs[n..][1..] == cs[n + 1..];
    assert Passing(g, rule, cs[n..]) == Passing(g, rule, [cs[n]]) + Passing(g, rule, cs[n + 1..]);
    InsertAllAppend(rows, p, Passing(g, rule, [cs[n]]), Passing(g, rule, cs[n + 1..]), maxAttempts);
  }

  /** One rule more. */
  lemma RuleNext(rows: map<Key, Row>, g: Gates, p: Payload, rules: seq<Rule>, candidates: map<string, seq<Candidate>>,
                 n: nat, maxAttempts: nat)
    requires n < |rules|
    ensures var cs := CandidatesOf(candidates, rules[n]);
            var here := if RuleSelected(rules[n], p) then RulePairs(g, rules[n], p, cs) else [];
            var rest := Pairs(g, p, rules[n + 1..], candidates);
      && Pairs(g, p, rules[n..], candidates) == here + rest
      && InsertAll(rows, p, here + rest, maxAttempts) ==
          InsertAll(InsertAll(rows, p, here, maxAttempts), p, rest, maxAttempts)
  {
    assert rules[n..][0] == rules[n] && rules[n..][1..] == rules[n + 1..];
    var here := if RuleSelected(rules[n], p) then RulePairs(g, rules[n], p, CandidatesOf(candidates, rules[n])) else [];
    InsertAllAppend(rows, p, here, Pairs(g, p, rules[n + 1..], candidates), maxAttempts);
  }

  /** Every pair has its row, whoever inserted it. */
  predicate Present(rows: map<Key, Row>, p: Payload, pairs: seq<Pair>) {
    forall x :: x in pairs ==> PairKey(p, x) in rows
  }

  /** Every pair has its row or is still to come. */
  predicate Remaining(rows: map<Key, Row>, p: Payload, all: seq<Pair>, rest: seq<Pair>) {
    forall x :: x in all ==> PairKey(p, x) in rows || x in rest
  }

  lemma RemainingFewer(rows: map<Key, Row>, after: map<Key, Row>, p: Payload, all: seq<Pair>, here: seq<Pair>,
                       rest: seq<Pair>)
    requires Remaining(rows, p, all, here + rest) && rows.Keys <= after.Keys && Present(after, p, here)
    ensures Remaining(after, p, all, rest)
  {
    forall x | x in all
      ensures PairKey(p, x) in after || x in rest
    {
      assert PairKey(p, x) in rows ==> PairKey(p, x) in after.Keys;
    }
  }

  // ---------------------------------------------------------------------------------------------
  // The engine itself
  // ---------------------------------------------------------------------------------------------

  class NotificationEngine {
    const db: Database

    constructor (database: Database)
      ensures db == database
    {
      db := database;
    }

    /** One recipient of one firing rule: the gates in order, then get_or_create; others may act up to the insertion. */
    method ProcessRecipient(g: Gates, rule: Rule, p: Payload, c: Candidate, maxAttempts: nat, ghost quiet: bool)
      requires db.Valid() && rule.id in db.cfg.rules && db.cfg.rules[rule.id] == rule
      requires RuleSelected(rule, p) && RuleFires(g, rule, p)
      modifies db
      ensures db.Valid() && Leads(db.cfg, old(db.State()), db.State())
      ensures old(db.rows.Keys) <= db.rows.Keys && Present(db.rows, p, Passing(g, rule, [c]))
      ensures Qualifies(g, rule, c) ==> EventKey(rule, p, c.recipient) in db.rows
      ensures quiet && !Qualifies(g, rule, c) ==> db.rows == old(db.rows)
      ensures quiet ==> db.rows == InsertAll(old(db.rows), p, Passing(g, rule, [c]), maxAttempts)
    {
      QualifiesExactly(g, rule, c);
      ghost var s0 := db.State();
      LeadsNowhere(db.cfg, s0, Outsider);
      if !ChannelEnabled(g, rule, rule.channel) {
        return;
      }
      if !ConsentAllowed(g, rule, rule.channel, c.recipient) {
        return;
      }
      var identity := Address(c.recipient, rule.channel);
      if identity == "" {
        return;
      }
      if !HasTemplate(g, rule, c.language) {
        return;
      }
      db.Interfere(Outsider, quiet);
      ghost var s1 := db.State();
      LeadsOthers(db.cfg, s0, s0, s1, Outsider);
      LeadsStep(db.cfg, s0, s1, Emit(rule.id, p, c, g, maxAttempts));
      var created := db.GetOrCreate(EventKey(rule, p, c.recipient), EventRow(rule, p, c, maxAttempts), g);
    }

    method ProcessRule(g: Gates, rule: Rule, p: Payload, recipients: seq<Candidate>, maxAttempts: nat,
                       ghost quiet: bool)
      requires db.Valid() && rule.id in db.cfg.rules && db.cfg.rules[rule.id] == rule && RuleSelected(rule, p)
      modifies db
      ensures db.Valid() && Leads(db.cfg, old(db.State()), db.State())
      ensures old(db.rows.Keys) <= db.rows.Keys && Present(db.rows, p, RulePairs(g, rule, p, recipients))
      ensures quiet ==> db.rows == InsertAll(old(db.rows), p, RulePairs(g, rule, p, recipients), maxAttempts)
      ensures quiet ==> forall k :: k in db.rows <==>
                || k in old(db.rows)
                || ((rule.entity, rule.moduleName) in g.modules && Evaluate(rule.conditions, p.data)
                    && exists c :: c in recipients && Qualifies(g, rule, c) && k == EventKey(rule, p, c.recipient))
    {
      RuleKeys(old(db.rows), g, rule, p, recipients, maxAttempts);
      ghost var s0 := db.State();
      LeadsNowhere(db.cfg, s0, Outsider);
      if (rule.entity, rule.moduleName) !in g.modules {
        return;
      }
      if !Evaluate(rule.conditions, p.data) {
        return;
      }
      var n := 0;
      while n < |recipients|
        invariant 0 <= n <= |recipients|
        invariant db.Valid() && Leads(db.cfg, s0, db.State()) && old(db.rows.Keys) <= db.rows.Keys
        invariant Remaining(db.rows, p, Passing(g, rule, recipients), Passing(g, rule, recipients[n..]))
        invariant quiet ==>
                    InsertAll(db.rows, p, Passing(g, rule, recipients[n..]), maxAttempts)
                    == InsertAll(old(db.rows), p, Passing(g, rule, recipients), maxAttempts)
      {
        ghost var s1, rows1 := db.State(), db.rows;
        ProcessRecipient(g, rule, p, recipients[n], maxAttempts, quiet);
        LeadsTrans(db.cfg, s0, s1, db.State());
        InsertNext(rows1, g, rule, recipients, n, p, maxAttempts);
        RemainingFewer(rows1, db.rows, p, Passing(g, rule, recipients), Passing(g, rule, [recipients[n]]),
                       Passing(g, rule, recipients[n + 1..]));
        n := n + 1;
      }
    }

    /**
      Others may act between any two of its statements. In any case every key that is asked for exists
      afterwards; undisturbed, exactly the missing rows have been added.
     */
    method OnEvent(systemEnabled: bool, g: Gates, p: Payload, rules: seq<Rule>, candidates: map<string, seq<Candidate>>,
                   maxAttempts: nat, ghost quiet: bool)
      requires db.Valid() && forall r :: r in rules ==> r.id in db.cfg.rules && db.cfg.rules[r.id] == r
      modifies db
      ensures db.Valid() && Leads(db.cfg, old(db.State()), db.State())
      ensures old(db.rows.Keys) <= db.rows.Keys
      ensures systemEnabled && p.entity != "" ==> forall k :: Wanted(g, p, rules, candidates, k) ==> k in db.rows
      ensures quiet && !(systemEnabled && p.entity != "") ==> db.rows == old(db.rows)
      ensures quiet && systemEnabled && p.entity != "" ==>
                && db.rows == InsertAll(old(db.rows), p, Pairs(g, p, rules, candidates), maxAttempts)
                && (forall k :: k in db.rows <==> k in old(db.rows) || Wanted(g, p, rules, candidates, k))
                && (forall k :: k in old(db.rows) ==> db.rows[k] == old(db.rows)[k])
    {
      ghost var s0 := db.State();
      LeadsNowhere(db.cfg, s0, Outsider);
      if !systemEnabled || p.entity == "" {
        return;
      }
      ghost var all := Pairs(g, p, rules, candidates);
      var n := 0;
      while n < |rules|
        invariant 0 <= n <= |rules|
        invariant db.Valid() && Leads(db.cfg, s0, db.State()) && old(db.rows.Keys) <= db.rows.Keys
        invariant Remaining(db.rows, p, all, Pairs(g, p, rules[n..], candidates))
        invariant quiet ==>
                    InsertAll(db.rows, p, Pairs(g, p, rules[n..], candidates), maxAttempts)
                    == InsertAll(old(db.rows), p, all, maxAttempts)
      {
        var rule := rules[n];
        ghost var s1, rows1 := db.State(), db.rows;
        ghost var here := if RuleSelected(rule, p) then RulePairs(g, rule, p, CandidatesOf(candidates, rule)) else [];
        if RuleSelected(rule, p) {
          ProcessRule(g, rule, p, CandidatesOf(candidates, rule), maxAttempts, quiet);
          LeadsTrans(db.cfg, s0, s1, db.State());
        }
        RuleNext(rows1, g, p, rules, candidates, n, maxAttempts);
        RemainingFewer(rows1, db.rows, p, all, here, Pairs(g, p, rules[n + 1..], candidates));
        n := n + 1;
      }
      assert Present(db.rows, p, all);
      PresentWanted(db.rows, g, p, rules, candidates);
      EventIsIdempotent(old(db.rows), g, p, rules, candidates, maxAttempts, maxAttempts);
    }

    /** The fallback of a failed row, in its own transaction; `created` is the new row's key. */
    method CreateFallbackOutbox(outbox: NotificationOutbox, g: Gates, at: Time, maxAttempts: nat, ghost i: nat)
      returns (created: Option<Key>)
      requires db.Valid() && outbox.key in db.rows && Enabled(db.State().cells[outbox.key], Fall(i))
      requires outbox.notice == db.rows[outbox.key].notice
      modifies db
      ensures db.Valid() && Leads(db.cfg, old(db.State()), db.State())
      ensures var ch := FallbackChannel(db.cfg.rules, g, outbox.notice);
        && (created.Some? <==> ch.Some? && FallbackKey(outbox.key, ch.value) !in old(db.rows))
        && (created.Some? ==> created.value == FallbackKey(outbox.key, ch.value))
        && db.rows == (if created.Some?
                       then old(db.rows)[created.value := FallbackRow(outbox.key, outbox.notice, ch.value, at,
                           maxAttempts)]
                       else old(db.rows))
      ensures db.attempts == if created.Some? then old(db.attempts)[created.value := map[]] else old(db.attempts)
      ensures created.Some? <==>
                && outbox.notice.rule in db.cfg.rules
                && var n, rule := outbox.notice, db.cfg.rules[outbox.notice.rule];
                   && rule.fallback.Some? && rule.fallback.value != n.channel && n.fallbackOf == None
                   && MayUse(g, rule, rule.fallback.value, n.recipient)
                   && (if rule.fallback == Some(Email) then n.recipient.email != "" else n.recipient.phone != "")
                   && FallbackKey(outbox.key, rule.fallback.value) !in old(db.rows)
      ensures created.Some? ==>
                var n, ch := outbox.notice, db.cfg.rules[outbox.notice.rule].fallback.value;
                && created.value == outbox.key + ":fallback:" + ChannelText(ch) && created.value in db.rows
                && db.rows[created.value] ==
                     Row(n.(channel := ch,
                            identity := if ch == Email then n.recipient.email else n.recipient.phone,
                            subject := if ch == Email then n.subject else "",
                            fallbackOf := Some(outbox.key)),
                         at, Pending, 0, maxAttempts, None, None, None)
    {
      if outbox.notice.rule in db.cfg.rules && db.cfg.rules[outbox.notice.rule].fallback.Some? {
        FallbackChannelExactly(db.cfg.rules, g, outbox.notice, db.cfg.rules[outbox.notice.rule].fallback.value);
      }
      ghost var s0 := db.State();
      LeadsNowhere(db.cfg, s0, Outsider);
      LeadsStep(db.cfg, s0, s0, Fallback(outbox.key, i, g, at, maxAttempts));
      db.LeaveFalling(outbox.key, i);
      created := None;
      if outbox.notice.rule !in db.cfg.rules {
        return;
      }
      var rule := db.cfg.rules[outbox.notice.rule];
      if rule.fallback.None? {
        return;
      }
      var ch := rule.fallback.value;
      if ch == outbox.notice.channel {
        return;
      }
      if outbox.notice.fallbackOf.Some? {
        return;
      }
      var recipient := outbox.notice.recipient;
      if !ChannelEnabled(g, rule, ch) || !ConsentAllowed(g, rule, ch, recipient) {
        return;
      }
      if Address(recipient, ch) == "" {
        return;
      }
      var k := FallbackKey(outbox.key, ch);
      var isNew := db.GetOrCreate(k, FallbackRow(outbox.key, outbox.notice, ch, at, maxAttempts), g);
      if isNew {
        created := Some(k);
      }
    }
  }

  // ---------------------------------------------------------------------------------------------
  // What an event leaves behind
  // ---------------------------------------------------------------------------------------------

  lemma {:induction false} PassingExactly(g: Gates, rule: Rule, cs: seq<Candidate>, x: Pair)
    ensures x in Passing(g, rule, cs) <==> x.rule == rule && x.candidate in cs && CandidatePasses(g, rule, x.candidate)
    decreases |cs|
  {
    if cs != [] {
      PassingExactly(g, rule, cs[1..], x);
    }
  }

  lemma {:induction false} PairsPass(g: Gates, p: Payload, rules: seq<Rule>,
                                        candidates: map<string, seq<Candidate>>, x: Pair)
    ensures x in Pairs(g, p, rules, candidates) <==>
            && x.rule in rules && RuleSelected(x.rule, p) && RuleFires(g, x.rule, p)
            && x.candidate in CandidatesOf(candidates, x.rule) && CandidatePasses(g, x.rule, x.candidate)
    decreases |rules|
  {
    if rules != [] {
      PassingExactly(g, rules[0], CandidatesOf(candidates, rules[0]), x);
      PairsPass(g, p, rules[1..], candidates, x);
    }
  }

  /**
    The pairs processed, in terms of the tables: an enabled rule of the event's entity, name and branch or of no
    branch, whose module is active and whose conditions hold; and one of its candidates whose channel is on in the
    settings row that counts, who does not refuse it and for marketing has agreed, who has an address for it and
    for whom there is a template.
   */
  lemma PairsExactly(g: Gates, p: Payload, rules: seq<Rule>, candidates: map<string, seq<Candidate>>, x: Pair)
    ensures x in Pairs(g, p, rules, candidates) <==>
            var r, c := x.rule, x.candidate;
            var own := PreferenceKey(r.entity, c.recipient.kind, c.recipient.key, r.channel, r.category);
            var language := if c.language == "" then g.defaultLanguage else c.language;
            && r in rules && r.id in candidates && c in candidates[r.id]
            && r.enabled && r.entity == p.entity && r.event == p.event && r.branch in {None, p.branch}
            && (r.entity, r.moduleName) in g.modules && Evaluate(r.conditions, p.data)
            && (if r.branch != None && (r.entity, r.branch) in g.settings
                then r.channel in g.settings[(r.entity, r.branch)]
                else (r.entity, None) in g.settings && r.channel in g.settings[(r.entity, None)])
            && (own in g.preferences ==> g.preferences[own])
            && (r.category == Marketing ==> own in g.preferences)
            && (if r.channel == Email then c.recipient.email else c.recipient.phone) != ""
            && ((r.id, Some(language)) in g.templates || (r.id, None) in g.templates)
  {
    PairsPass(g, p, rules, candidates, x);
    QualifiesExactly(g, x.rule, x.candidate);
  }

  ghost predicate HasKey(p: Payload, pairs: seq<Pair>, k: Key) {
    exists x :: x in pairs && PairKey(p, x) == k
  }

  lemma HasKeyCons(p: Payload, pairs: seq<Pair>, k: Key)
    requires pairs != []
    ensures HasKey(p, pairs, k) <==> k == PairKey(p, pairs[0]) || HasKey(p, pairs[1..], k)
  {
    assert pairs == [pairs[0]] + pairs[1..];
    assert pairs[0] in pairs;
  }

  /** Keys grow by exactly the pairs' keys, and existing rows stay as they are. */
  lemma {:induction false} InsertAllKeys(rows: map<Key, Row>, p: Payload, pairs: seq<Pair>, maxAttempts: nat, k: Key)
    ensures var after := InsertAll(rows, p, pairs, maxAttempts);
      && (k in after <==> k in rows || HasKey(p, pairs, k))
      && (k in rows ==> after[k] == rows[k])
    decreases |pairs|
  {
    if pairs != [] {
      InsertAllKeys(InsertOne(rows, p, pairs[0], maxAttempts), p, pairs[1..], maxAttempts, k);
      HasKeyCons(p, pairs, k);
    }
  }

  /** Every new row is some pair's fresh, pending row. */
  lemma {:induction false} InsertAllRows(rows: map<Key, Row>, p: Payload, pairs: seq<Pair>, maxAttempts: nat, k: Key)
    returns (x: Pair)
    requires k in InsertAll(rows, p, pairs, maxAttempts) && k !in rows
    ensures x in pairs && PairKey(p, x) == k
    ensures InsertAll(rows, p, pairs, maxAttempts)[k] == EventRow(x.rule, p, x.candidate, maxAttempts)
    ensures var row, r, c := InsertAll(rows, p, pairs, maxAttempts)[k], x.rule, x.candidate;
      && row.status == Pending && row.attempts == 0 && row.maxAttempts == maxAttempts
      && row.scheduledAt == p.scheduledAt
      && row.dispatchingAt == None && row.processingAt == None && row.nextRetryAt == None
      && var n := row.notice;
         && n.rule == r.id && n.channel == r.channel && n.category == r.category && n.priority == r.priority
         && n.recipient == c.recipient
         && n.identity == (if r.channel == Email then c.recipient.email else c.recipient.phone)
         && n.subject == c.subject && n.body == c.body && n.fallbackOf == None
    decreases |pairs|
  {
    var next := InsertOne(rows, p, pairs[0], maxAttempts);
    if k == PairKey(p, pairs[0]) {
      InsertAllKeys(next, p, pairs[1..], maxAttempts, k);
      x := pairs[0];
    } else {
      x := InsertAllRows(next, p, pairs[1..], maxAttempts, k);
    }
  }

  /** One rule's insertions: the keys of the candidates that qualify, if it fires. */
  lemma RuleKeys(rows: map<Key, Row>, g: Gates, rule: Rule, p: Payload, cs: seq<Candidate>, maxAttempts: nat)
    ensures forall k :: k in InsertAll(rows, p, RulePairs(g, rule, p, cs), maxAttempts) <==>
              || k in rows
              || ((rule.entity, rule.moduleName) in g.modules && Evaluate(rule.conditions, p.data)
                  && exists c :: c in cs && Qualifies(g, rule, c) && k == EventKey(rule, p, c.recipient))
  {
    var pairs := RulePairs(g, rule, p, cs);
    forall k
      ensures k in InsertAll(rows, p, pairs, maxAttempts) <==> k in rows || HasKey(p, pairs, k)
    {
      InsertAllKeys(rows, p, pairs, maxAttempts, k);
    }
    forall k
      ensures HasKey(p, pairs, k) <==>
                && RuleFires(g, rule, p)
                && exists c :: c in cs && Qualifies(g, rule, c) && k == EventKey(rule, p, c.recipient)
    {
      QualifyingKeys(g, rule, p, cs, k);
    }
  }

  lemma QualifyingKeys(g: Gates, rule: Rule, p: Payload, cs: seq<Candidate>, k: Key)
    ensures HasKey(p, Passing(g, rule, cs), k) <==>
              exists c :: c in cs && Qualifies(g, rule, c) && k == EventKey(rule, p, c.recipient)
  {
    if x :| x in Passing(g, rule, cs) && PairKey(p, x) == k {
      PassingExactly(g, rule, cs, x);
      QualifiesExactly(g, rule, x.candidate);
    }
    if c :| c in cs && Qualifies(g, rule, c) && k == EventKey(rule, p, c.recipient) {
      PassingExactly(g, rule, cs, Pair(rule, c));
      QualifiesExactly(g, rule, c);
      assert PairKey(p, Pair(rule, c)) == k;
    }
  }

  lemma {:induction false} NothingToInsert(rows: map<Key, Row>, p: Payload, pairs: seq<Pair>, maxAttempts: nat)
    requires forall x :: x in pairs ==> PairKey(p, x) in rows
    ensures InsertAll(rows, p, pairs, maxAttempts) == rows
    decreases |pairs|
  {
    if pairs != [] {
      NothingToInsert(rows, p, pairs[1..], maxAttempts);
    }
  }

  /** The key of a rule that the event concerns and that fires, and of one of its candidates that qualifies. */
  ghost predicate Wanted(g: Gates, p: Payload, rules: seq<Rule>, candidates: map<string, seq<Candidate>>, k: Key) {
    exists r, c :: WantedFor(g, p, rules, candidates, r, c) && k == EventKey(r, p, c.recipient)
  }

  ghost predicate WantedFor(g: Gates, p: Payload, rules: seq<Rule>, candidates: map<string, seq<Candidate>>, r: Rule,
                            c: Candidate)
  {
    && r in rules && r.id in candidates && c in candidates[r.id]
    && r.enabled && r.entity == p.entity && r.event == p.event && r.branch in {None, p.branch}
    && (r.entity, r.moduleName) in g.modules && Evaluate(r.conditions, p.data)
    && Qualifies(g, r, c)
  }

  lemma WantedIsPaired(g: Gates, p: Payload, rules: seq<Rule>, candidates: map<string, seq<Candidate>>, k: Key)
    ensures Wanted(g, p, rules, candidates, k) <==> HasKey(p, Pairs(g, p, rules, candidates), k)
  {
    if x :| x in Pairs(g, p, rules, candidates) && PairKey(p, x) == k {
      PairsPass(g, p, rules, candidates, x);
      QualifiesExactly(g, x.rule, x.candidate);
      assert WantedFor(g, p, rules, candidates, x.rule, x.candidate);
    }
    if Wanted(g, p, rules, candidates, k) {
      var r, c :| WantedFor(g, p, rules, candidates, r, c) && k == EventKey(r, p, c.recipient);
      PairsPass(g, p, rules, candidates, Pair(r, c));
      QualifiesExactly(g, r, c);
      assert PairKey(p, Pair(r, c)) == k;
    }
  }

  lemma PresentWanted(rows: map<Key, Row>, g: Gates, p: Payload, rules: seq<Rule>,
                      candidates: map<string, seq<Candidate>>)
    requires Present(rows, p, Pairs(g, p, rules, candidates))
    ensures forall k :: Wanted(g, p, rules, candidates, k) ==> k in rows
  {
    forall k | Wanted(g, p, rules, candidates, k)
      ensures k in rows
    {
      WantedIsPaired(g, p, rules, candidates, k);
    }
  }

  /**
    An event adds exactly the keys of the (rule, recipient) pairs that pass every gate and changes no
    existing row; a replay, even under another attempt limit, changes nothing at all.
   */
  lemma EventIsIdempotent(rows: map<Key, Row>, g: Gates, p: Payload, rules: seq<Rule>,
                          candidates: map<string, seq<Candidate>>, m: nat, n: nat)
    ensures var pairs := Pairs(g, p, rules, candidates);
            var after := InsertAll(rows, p, pairs, m);
      && (forall k :: k in after <==> (k in rows || Wanted(g, p, rules, candidates, k)))
      && (forall k :: k in rows ==> after[k] == rows[k])
      && InsertAll(after, p, pairs, n) == after
  {
    var pairs := Pairs(g, p, rules, candidates);
    var after := InsertAll(rows, p, pairs, m);
    forall k: Key
      ensures k in after <==> (k in rows || Wanted(g, p, rules, candidates, k))
      ensures k in rows ==> after[k] == rows[k]
    {
      InsertAllKeys(rows, p, pairs, m, k);
      WantedIsPaired(g, p, rules, candidates, k);
    }
    forall x | x in pairs
      ensures PairKey(p, x) in after
    {
      InsertAllKeys(rows, p, pairs, m, PairKey(p, x));
    }
    NothingToInsert(after, p, pairs, n);
  }

  // ---------------------------------------------------------------------------------------------
  // When ids contain colons
  // ---------------------------------------------------------------------------------------------

  /** The owners of two objects, addressed and of the usual `user:<id>` shape, the ids being texts. */
  const FIRST_OWNER := Candidate(Recipient("user", "user:a", "first@example.org", ""), "en", "s", "b")
  const SECOND_OWNER := Candidate(Recipient("user", "user:a:b", "second@example.org", ""), "en", "s", "b")
  const OWNER_RULE := Rule("r", "e", None, "ev", true, "m", Email, System, "normal", Empty, None)
  const OPEN_GATES := Gates({("e", "m")}, map[("e", None) := {Email}], map[], {("r", None)}, "en")
  const FIRST_EVENT := Payload("e", None, "ev", "b:o", "", Null, 0.0)
  const SECOND_EVENT := FIRST_EVENT.(occurrence := "o")

  lemma SinglePair(g: Gates, p: Payload, rule: Rule, c: Candidate)
    requires RuleSelected(rule, p) && RuleFires(g, rule, p) && CandidatePasses(g, rule, c)
    ensures Pairs(g, p, [rule], map[rule.id := [c]]) == [Pair(rule, c)]
  {
    assert [rule][1..] == [] && [c][1..] == [];
    assert Passing(g, rule, [c]) == [Pair(rule, c)];
    assert CandidatesOf(map[rule.id := [c]], rule) == [c];
  }

  /**
    With a colon in an id two different occasions get one key: both events select and fire the rule, both
    recipients pass every gate, and yet the second event inserts nothing, so the second owner hears nothing.
   */
  lemma SecondOwnerIsForgotten(maxAttempts: nat)
    ensures FIRST_OWNER.recipient.key != SECOND_OWNER.recipient.key &&
              Occurrence(FIRST_EVENT) != Occurrence(SECOND_EVENT)
    ensures var first := Pairs(OPEN_GATES, FIRST_EVENT, [OWNER_RULE], map["r" := [FIRST_OWNER]]);
            var second := Pairs(OPEN_GATES, SECOND_EVENT, [OWNER_RULE], map["r" := [SECOND_OWNER]]);
            var rows := InsertAll(map[], FIRST_EVENT, first, maxAttempts);
      && first == [Pair(OWNER_RULE, FIRST_OWNER)] && second == [Pair(OWNER_RULE, SECOND_OWNER)]
      && (forall k :: k in rows ==> rows[k].notice.recipient == FIRST_OWNER.recipient)
      && InsertAll(rows, SECOND_EVENT, second, maxAttempts) == rows
  {
    var first := Pairs(OPEN_GATES, FIRST_EVENT, [OWNER_RULE], map["r" := [FIRST_OWNER]]);
    var second := Pairs(OPEN_GATES, SECOND_EVENT, [OWNER_RULE], map["r" := [SECOND_OWNER]]);
    SinglePair(OPEN_GATES, FIRST_EVENT, OWNER_RULE, FIRST_OWNER);
    SinglePair(OPEN_GATES, SECOND_EVENT, OWNER_RULE, SECOND_OWNER);
    assert FIRST_OWNER.recipient.key + ":" + Occurrence(FIRST_EVENT) == "user:a:b:o"
        == SECOND_OWNER.recipient.key + ":" + Occurrence(SECOND_EVENT);
    assert PairKey(FIRST_EVENT, first[0]) == PairKey(SECOND_EVENT, second[0]);
    var rows := InsertOne(map[], FIRST_EVENT, first[0], maxAttempts);
    assert InsertAll(map[], FIRST_EVENT, first, maxAttempts) ==
        InsertAll(rows, FIRST_EVENT, first[1..], maxAttempts) == rows;
    NothingToInsert(rows, SECOND_EVENT, second, maxAttempts);
  }
}
