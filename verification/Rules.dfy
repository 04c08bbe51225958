/** What the engine decides: which rows an event or a failure may create, and under which key. */
module Rules {
  import opened Wrappers
  import opened Enums
  import opened Rows
  import opened Conditions

  datatype Rule = Rule(
    id: string,
    entity: string,
    branch: Option<string>,
    event: string,
    enabled: bool,
    moduleName: string,
    channel: Channel,
    category: Category,
    priority: string,
    conditions: Tree,
    fallback: Option<Channel>)

  datatype PreferenceKey = PreferenceKey(
    entity: string, kind: string, key: string, channel: Channel, category: Category)

  /** The configuration tables the gates read; they may change between any two steps. */
  datatype Gates = Gates(
    modules: set<(string, string)>,                           // (entity, module) pairs that are active and entitled
    settings: map<(string, Option<string>), set<Channel>>,     // enabled channels per entity and optional branch
    preferences: map<PreferenceKey, bool>,
    templates: set<(string, Option<string>)>,                  // (rule, language); no language is the default template
    defaultLanguage: string)

  datatype Payload = Payload(
    entity: string,
    branch: Option<string>,
    event: string,
    occurrence: string,       // "" when the caller gave none
    objectKey: string,        // "" when there is no object
    data: Value,
    scheduledAt: Time)

  /** A resolved recipient, its language ("" for none) and the text its template renders to. */
  datatype Candidate = Candidate(recipient: Recipient, language: string, subject: string, body: string)

  // ---------------------------------------------------------------------------------------------
  // Gates
  // ---------------------------------------------------------------------------------------------

  function SettingsFor(g: Gates, rule: Rule): Option<set<Channel>> {
    if rule.branch.Some? && (rule.entity, rule.branch) in g.settings then Some(g.settings[(rule.entity, rule.branch)])
    else if (rule.entity, None) in g.settings then Some(g.settings[(rule.entity, None)])
    else None
  }

  /** No settings row at all means the channel is off. */
  predicate ChannelEnabled(g: Gates, rule: Rule, ch: Channel) {
    SettingsFor(g, rule).Some? && ch in SettingsFor(g, rule).value
  }

  /** Marketing needs an explicit opt-in; everything else only respects an explicit opt-out. */
  predicate ConsentAllowed(g: Gates, rule: Rule, ch: Channel, r: Recipient) {
    var k := PreferenceKey(rule.entity, r.kind, r.key, ch, rule.category);
    if rule.category == Marketing then k in g.preferences && g.preferences[k]
    else k in g.preferences ==> g.preferences[k]
  }

  predicate HasTemplate(g: Gates, rule: Rule, language: string) {
    var code := if language != "" then language else g.defaultLanguage;
    (rule.id, Some(code)) in g.templates || (rule.id, None) in g.templates
  }

  /** The channel's own switch and the recipient's own consent for that channel. */
  predicate Admitted(g: Gates, rule: Rule, ch: Channel, r: Recipient) {
    ChannelEnabled(g, rule, ch) && ConsentAllowed(g, rule, ch, r)
  }

  predicate RuleSelected(rule: Rule, p: Payload) {
    rule.entity == p.entity && rule.event == p.event && rule.enabled
    && (rule.branch == p.branch || rule.branch == None)
  }

  predicate RuleFires(g: Gates, rule: Rule, p: Payload) {
    (rule.entity, rule.moduleName) in g.modules && Evaluate(rule.conditions, p.data)
  }

  predicate CandidatePasses(g: Gates, rule: Rule, c: Candidate) {
    && Admitted(g, rule, rule.channel, c.recipient)
    && Address(c.recipient, rule.channel) != ""
    && HasTemplate(g, rule, c.language)
  }

  // ---------------------------------------------------------------------------------------------
  // Rows and keys
  // ---------------------------------------------------------------------------------------------

  function Occurrence(p: Payload): string {
    if p.occurrence != "" then p.occurrence
    else p.event + ":" + (if p.objectKey != "" then p.objectKey else "-")
  }

  function EventKey(rule: Rule, p: Payload, r: Recipient): Key {
    rule.entity + ":" + (rule.id + ":" + (ChannelText(rule.channel) + ":" + (r.key + ":" + Occurrence(p))))
  }

  function EventNotice(rule: Rule, c: Candidate): Notice {
    Notice(rule.id, rule.channel, rule.category, rule.priority, c.recipient, Address(c.recipient, rule.channel),
           c.subject, c.body, None)
  }

  function EventRow(rule: Rule, p: Payload, c: Candidate, maxAttempts: nat): Row {
    NewRow(EventNotice(rule, c), p.scheduledAt, maxAttempts)
  }

  function FallbackKey(original: Key, ch: Channel): Key {
    original + ":fallback:" + ChannelText(ch)
  }

  /** The channel `create_fallback_outbox` would use, if its checks let it use one. */
  function FallbackChannel(rules: map<string, Rule>, g: Gates, n: Notice): Option<Channel> {
    if n.rule !in rules then None
    else
      var rule := rules[n.rule];
      if rule.fallback.None? then None
      else
        var ch := rule.fallback.value;
        if ch == n.channel || n.fallbackOf.Some? then None
        else if !Admitted(g, rule, ch, n.recipient) then None
        else if Address(n.recipient, ch) == "" then None
        else Some(ch)
  }

  function FallbackNotice(original: Key, n: Notice, ch: Channel): Notice {
    n.(channel := ch,
       identity := Address(n.recipient, ch),
       subject := if ch == Email then n.subject else "",
       fallbackOf := Some(original))
  }

  /** A fallback is scheduled for the moment it is created and inherits the original's priority. */
  function FallbackRow(original: Key, n: Notice, ch: Channel, at: Time, maxAttempts: nat): Row {
    NewRow(FallbackNotice(original, n, ch), at, maxAttempts)
  }

  // ---------------------------------------------------------------------------------------------
  // What the gates ask of the tables
  // ---------------------------------------------------------------------------------------------

  /**
    The channel is on in the settings row that counts: the branch's if the rule has a branch and the branch a row,
    and otherwise the entity's, which must exist. No preference row refuses, and a marketing message has one.
   */
  ghost predicate MayUse(g: Gates, rule: Rule, ch: Channel, r: Recipient) {
    var own := PreferenceKey(rule.entity, r.kind, r.key, ch, rule.category);
    && (rule.branch != None && (rule.entity, rule.branch) in g.settings ==>
          ch in g.settings[(rule.entity, rule.branch)])
    && (rule.branch == None || (rule.entity, rule.branch) !in g.settings ==>
          (rule.entity, None) in g.settings && ch in g.settings[(rule.entity, None)])
    && (own in g.preferences ==> g.preferences[own])
    && (rule.category == Marketing ==> own in g.preferences)
  }

  lemma MayUseExactly(g: Gates, rule: Rule, ch: Channel, r: Recipient)
    ensures Admitted(g, rule, ch, r) <==> MayUse(g, rule, ch, r)
  {
  }

  /** The recipient may be reached on the rule's channel, has an address there, and a template exists for it. */
  ghost predicate Qualifies(g: Gates, rule: Rule, c: Candidate) {
    && MayUse(g, rule, rule.channel, c.recipient)
    && (if rule.channel == Email then c.recipient.email != "" else c.recipient.phone != "")
    && ((rule.id, None) in g.templates
        || (c.language != "" && (rule.id, Some(c.language)) in g.templates)
        || (c.language == "" && (rule.id, Some(g.defaultLanguage)) in g.templates))
  }

  lemma QualifiesExactly(g: Gates, rule: Rule, c: Candidate)
    ensures CandidatePasses(g, rule, c) <==> Qualifies(g, rule, c)
  {
    MayUseExactly(g, rule, rule.channel, c.recipient);
  }

  /** A fallback needs a rule that names another channel, an original, and a recipient who may be reached there. */
  lemma FallbackChannelExactly(rules: map<string, Rule>, g: Gates, n: Notice, ch: Channel)
    ensures FallbackChannel(rules, g, n) == Some(ch) <==>
            && n.rule in rules && rules[n.rule].fallback == Some(ch)
            && n.fallbackOf == None && ch != n.channel
            && MayUse(g, rules[n.rule], ch, n.recipient)
            && (if ch == Email then n.recipient.email != "" else n.recipient.phone != "")
  {
    if n.rule in rules {
      MayUseExactly(g, rules[n.rule], ch, n.recipient);
    }
  }

  // ---------------------------------------------------------------------------------------------
  // The key identifies the occasion
  // ---------------------------------------------------------------------------------------------

  predicate ColonFree(s: string) {
    ':' !in s
  }

  function FirstColon(s: string): nat {
    if s == [] || s[0] == ':' then 0 else 1 + FirstColon(s[1..])
  }

  lemma {:induction false} FirstColonAt(a: string, x: string)
    requires ColonFree(a)
    ensures FirstColon(a + ":" + x) == |a|
  {
    var s := a + ":" + x;
    if a != [] {
      assert s[0] == a[0] && a[0] in a;
      assert s[1..] == a[1..] + ":" + x;
      FirstColonAt(a[1..], x);
    }
  }

  lemma SplitAtColon(a: string, x: string, b: string, y: string)
    requires ColonFree(a) && ColonFree(b) && a + ":" + x == b + ":" + y
    ensures a == b && x == y
  {
    FirstColonAt(a, x);
    FirstColonAt(b, y);
    assert a == (a + ":" + x)[..|a|] && b == (b + ":" + y)[..|b|];
    assert x == (a + ":" + x)[|a| + 1..] && y == (b + ":" + y)[|b| + 1..];
  }

  /** A recipient key of the shape `type:id`. */
  predicate TypedKey(r: Recipient, kind: string, id: string) {
    ColonFree(kind) && ColonFree(id) && r.key == kind + ":" + id
  }

  /** The key spelled out, part by part. */
  lemma EventKeyText(rule: Rule, p: Payload, r: Recipient)
    ensures EventKey(rule, p, r) ==
              rule.entity + ":" + rule.id + ":"
              + (if rule.channel == Email then "email" else if rule.channel == Sms then "sms"
                 else if rule.channel == Whatsapp then "whatsapp" else "push")
              + ":" + r.key + ":"
              + (if p.occurrence != "" then p.occurrence
                 else p.event + ":" + if p.objectKey == "" then "-" else p.objectKey)
  {
    var ch := ChannelText(rule.channel);
    assert rule.entity + ":" + (rule.id + ":" + (ch + ":" + (r.key + ":" + Occurrence(p)))) ==
        rule.entity + ":" + rule.id + ":" + ch + ":" + r.key + ":" + Occurrence(p);
  }

  lemma ChannelTexts(c: Channel, d: Channel)
    ensures ColonFree(ChannelText(c))
    ensures ChannelText(c) == ChannelText(d) ==> c == d
  {
  }

  /**
    Two events get the same key exactly when entity, rule and channel agree and the rest of the key reads
    the same. Entity and rule ids are free of colons.
   */
  lemma EventKeyExactly(r1: Rule, p1: Payload, c1: Recipient, r2: Rule, p2: Payload, c2: Recipient)
    requires ColonFree(r1.entity) && ColonFree(r2.entity) && ColonFree(r1.id) && ColonFree(r2.id)
    ensures EventKey(r1, p1, c1) == EventKey(r2, p2, c2) <==>
            r1.entity == r2.entity && r1.id == r2.id && r1.channel == r2.channel
            && c1.key + ":" + Occurrence(p1) == c2.key + ":" + Occurrence(p2)
  {
    if EventKey(r1, p1, c1) == EventKey(r2, p2, c2) {
      var rest1 := ChannelText(r1.channel) + ":" + (c1.key + ":" + Occurrence(p1));
      var rest2 := ChannelText(r2.channel) + ":" + (c2.key + ":" + Occurrence(p2));
      SplitAtColon(r1.entity, r1.id + ":" + rest1, r2.entity, r2.id + ":" + rest2);
      SplitAtColon(r1.id, rest1, r2.id, rest2);
      ChannelTexts(r1.channel, r2.channel);
      ChannelTexts(r2.channel, r1.channel);
      SplitAtColon(ChannelText(r1.channel), c1.key + ":" + Occurrence(p1),
                   ChannelText(r2.channel), c2.key + ":" + Occurrence(p2));
    }
  }

  lemma SplitTyped(kind1: string, id1: string, o1: string, kind2: string, id2: string, o2: string)
    requires ColonFree(kind1) && ColonFree(id1) && ColonFree(kind2) && ColonFree(id2)
    requires kind1 + ":" + id1 + ":" + o1 == kind2 + ":" + id2 + ":" + o2
    ensures kind1 == kind2 && id1 == id2 && o1 == o2
  {
    assert kind1 + ":" + id1 + ":" + o1 == kind1 + ":" + (id1 + ":" + o1);
    assert kind2 + ":" + id2 + ":" + o2 == kind2 + ":" + (id2 + ":" + o2);
    SplitAtColon(kind1, id1 + ":" + o1, kind2, id2 + ":" + o2);
    SplitAtColon(id1, o1, id2, o2);
  }

  /**
    So if recipient keys have the `type:id` shape with colon-free ids, the key determines recipient and
    occurrence too.
   */
  lemma EventKeyInjective(
      r1: Rule, p1: Payload, c1: Recipient, r2: Rule, p2: Payload, c2: Recipient,
      kind1: string, id1: string, kind2: string, id2: string)
    requires ColonFree(r1.entity) && ColonFree(r2.entity) && ColonFree(r1.id) && ColonFree(r2.id)
    requires TypedKey(c1, kind1, id1) && TypedKey(c2, kind2, id2)
    ensures EventKey(r1, p1, c1) == EventKey(r2, p2, c2) <==>
            r1.entity == r2.entity && r1.id == r2.id && r1.channel == r2.channel
            && c1.key == c2.key && Occurrence(p1) == Occurrence(p2)
  {
    EventKeyExactly(r1, p1, c1, r2, p2, c2);
    if c1.key + ":" + Occurrence(p1) == c2.key + ":" + Occurrence(p2) {
      SplitTyped(kind1, id1, Occurrence(p1), kind2, id2, Occurrence(p2));
    }
  }

  /** Some occurrences make two different recipient keys indistinguishable. */
  ghost predicate CanCollide(a: string, b: string) {
    a != b && exists o1, o2 :: o1 != "" && o2 != "" && a + ":" + o1 == b + ":" + o2
  }

  /** One key continues the other after a colon. */
  predicate Continues(a: string, b: string) {
    a + ":" <= b
  }

  lemma ContinuedCollides(a: string, b: string)
    requires Continues(a, b)
    ensures CanCollide(a, b) && CanCollide(b, a)
  {
    var z := b[|a| + 1..];
    assert b == a + ":" + z;
    assert a + ":" + (z + ":o") == b + ":" + "o";
  }

  lemma CollisionForces(a: string, b: string, o1: string, o2: string)
    requires a + ":" + o1 == b + ":" + o2
    ensures a == b || Continues(a, b) || Continues(b, a)
  {
    var s, t := a + ":" + o1, b + ":" + o2;
    if |a| < |b| {
      assert a + ":" == s[..|a| + 1] == t[..|a| + 1] == b[..|a| + 1];
    } else if |b| < |a| {
      assert b + ":" == t[..|b| + 1] == s[..|b| + 1] == a[..|b| + 1];
    } else {
      assert a == s[..|a|] == t[..|b|] == b;
    }
  }

  /** Two recipients can be confused under some pair of occurrences exactly when one key is the other up to a colon. */
  lemma RecipientsCollideExactly(a: string, b: string)
    ensures CanCollide(a, b) <==> Continues(a, b) || Continues(b, a)
  {
    if CanCollide(a, b) {
      var o1, o2 :| o1 != "" && o2 != "" && a + ":" + o1 == b + ":" + o2;
      CollisionForces(a, b, o1, o2);
    }
    if Continues(a, b) {
      ContinuedCollides(a, b);
    } else if Continues(b, a) {
      ContinuedCollides(b, a);
    }
  }
}
