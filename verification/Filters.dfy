/** Dashboard filters: which a widget accepts, and how a request's query parameters are parsed. */
module Filters {
  import opened Wrappers
  import opened Layout
  import opened Dashboards

  /** The opaque converters: dates and months as day numbers, and the lower-casing of text. */
  datatype Converters = Converters(
    date: string -> Option<int>,
    month: string -> Option<int>,
    integer: string -> Option<int>,
    number: string -> Option<real>,
    lower: string -> string)

  /** Query parameters (each key with its list of values) and the tenant the request is bound to. */
  datatype Query = Query(params: map<string, seq<string>>, entity: string, branch: Option<string>)

  datatype Parsed =
    | Day(day: int)
    | Year(year: int)
    | Number(number: real)
    | Flag(on: bool)
    | Text(text: string)
    | Many(values: seq<string>)
    | Days(start: Option<int>, end: Option<int>)
    | Numbers(low: Option<real>, high: Option<real>)

  datatype Complaint =
    | UnknownFilter | Missing | NotADate | NotAMonth | NotAYear | YearOutOfRange | NotANumber | NotABool
    | NotAChoice | EmptyRange | OtherTenant

  /** `DashboardFilterError` as `_parse_one` raises it: one field, one message. */
  datatype Fault = Fault(field: string, complaint: Complaint)

  const RESERVED := {"scope", "page", "page_size", "format"}

  // ---------------------------------------------------------------------------------------------
  // Which filters a widget has
  // ---------------------------------------------------------------------------------------------

  /** `{f["name"]: f for f in filters}`: a later definition replaces an earlier one. */
  function ByName(filters: seq<FilterDef>): (m: map<string, FilterDef>)
    ensures forall n :: n in m <==> n in FilterNames(filters)
    ensures forall n :: n in m ==> m[n] in filters && m[n].name == n
  {
    if filters == [] then map[]
    else
      var last := filters[|filters| - 1];
      assert filters == filters[..|filters| - 1] + [last];
      assert FilterNames(filters) == FilterNames(filters[..|filters| - 1]) + [last.name];
      ByName(filters[..|filters| - 1])[last.name := last]
  }

  /** The widget's own filters, over the globals restricted to what it accepts. */
  function Resolved(h: Head, w: Widget): map<string, FilterDef> {
    Restricted(ByName(ListOf(h.filters)), set n | n in w.accepts) + ByName(ListOf(w.filters))
  }

  function Restricted(filters: map<string, FilterDef>, names: set<string>): map<string, FilterDef> {
    map n | n in filters && n in names :: filters[n]
  }

  /** The `setdefault` loop: a name already resolved keeps its definition. */
  method SetDefaults(own: map<string, FilterDef>, base: map<string, FilterDef>)
    returns (resolved: map<string, FilterDef>)
    ensures resolved == own + base
  {
    resolved := base;
    var rest := own.Keys;
    while rest != {}
      invariant rest <= own.Keys
      invariant resolved == (map n | n in own && n !in rest :: own[n]) + base
      decreases |rest|
    {
      var name :| name in rest;
      if name !in resolved {
        resolved := resolved[name := own[name]];
      }
      rest := rest - {name};
    }
    assert (map n | n in own && n !in rest :: own[n]) == own;
  }

  function Chosen(globals: map<string, FilterDef>, own: map<string, FilterDef>, accepted: set<string>)
    : map<string, FilterDef>
  {
    map n | n in accepted && (n in globals || n in own) :: if n in own then own[n] else globals[n]
  }

  lemma OwnFirst(globals: map<string, FilterDef>, own: map<string, FilterDef>, accepted: set<string>)
    ensures own + Chosen(globals, own, accepted) == Restricted(globals, accepted) + own
  {
  }

  /** The accepted filters, each from the widget itself if it has one of that name, and then the widget's own. */
  method ResolveWidgetFilterDefs(h: Head, w: Widget) returns (resolved: map<string, FilterDef>)
    ensures resolved == Resolved(h, w)
  {
    var globals, own := ByName(ListOf(h.filters)), ByName(ListOf(w.filters));
    var accepted := set n | n in w.accepts;
    OwnFirst(globals, own, accepted);
    resolved := SetDefaults(own, Chosen(globals, own, accepted));
  }

  /** `f` is declared under its name, and nothing else is. */
  predicate TheOne(f: FilterDef, filters: seq<FilterDef>, others: seq<FilterDef>) {
    && f in filters
    && (forall g :: g in filters && g.name == f.name ==> g == f)
    && (forall g :: g in others ==> g.name != f.name)
  }

  lemma UniqueDef(filters: seq<FilterDef>, f: FilterDef, g: FilterDef)
    requires DistinctNames(FilterNames(filters)) && f in filters && g in filters && f.name == g.name
    ensures f == g
  {
    var i :| 0 <= i < |filters| && filters[i] == f;
    var j :| 0 <= j < |filters| && filters[j] == g;
    assert FilterNames(filters)[i] == FilterNames(filters)[j];
  }

  /** For a validated widget: exactly the accepted names plus its own, each with its only definition. */
  lemma ResolvedExactly(d: Dashboard, w: Widget)
    requires ValidDashboard(d) && w in WidgetsOf(d)
    ensures forall n :: n in Resolved(d.head, w) <==> n in w.accepts || n in FilterNames(ListOf(w.filters))
    ensures forall n :: n in Resolved(d.head, w) ==>
              var f := Resolved(d.head, w)[n];
              f.name == n && ValidFilter(f)
              && (TheOne(f, ListOf(w.filters), ListOf(d.head.filters)) ||
                  TheOne(f, ListOf(d.head.filters), ListOf(w.filters)))
  {
    var globals := ByName(ListOf(d.head.filters));
    var own := ByName(ListOf(w.filters));
    assert ValidWidget(w, Globals(ListOf(d.head.filters)));
    ListedNames(ListOf(d.head.filters));
    forall n | n in Resolved(d.head, w)
      ensures var f := Resolved(d.head, w)[n];
              f.name == n && ValidFilter(f)
              && (TheOne(f, ListOf(w.filters), ListOf(d.head.filters)) ||
                  TheOne(f, ListOf(d.head.filters), ListOf(w.filters)))
    {
      var f := Resolved(d.head, w)[n];
      var mine := if n in own then ListOf(w.filters) else ListOf(d.head.filters);
      var theirs := if n in own then ListOf(d.head.filters) else ListOf(w.filters);
      forall g | g in mine && g.name == f.name
        ensures g == f
      {
        UniqueDef(mine, f, g);
      }
      forall g | g in theirs
        ensures g.name != f.name
      {
        ListedNames(theirs);
      }
      assert TheOne(f, mine, theirs);
    }
  }

  // ---------------------------------------------------------------------------------------------
  // Parsing
  // ---------------------------------------------------------------------------------------------

  /** `query_params.get`: the last value given for the key. */
  function Get(q: Query, key: string): Option<string> {
    if key in q.params && q.params[key] != [] then Some(q.params[key][|q.params[key]| - 1]) else None
  }

  function GetList(q: Query, key: string): seq<string> {
    if key in q.params then q.params[key] else []
  }

  function ParamNames(name: string, kind: string): set<string> {
    if kind == "date_range" then {name + "_from", name + "_to"}
    else if kind == "number_range" then {name + "_min", name + "_max"}
    else {name}
  }

  function Absent(f: FilterDef, field: string): Result<Option<Parsed>, Fault> {
    if f.required then Err(Fault(field, Missing)) else Ok(None)
  }

  /** A date is optional and an empty one counts as not given. */
  function OptionalDay(cv: Converters, raw: Option<string>, field: string): Result<Option<int>, Fault> {
    if raw.None? || raw.value == "" then Ok(None)
    else if cv.date(raw.value).None? then Err(Fault(field, NotADate))
    else Ok(cv.date(raw.value))
  }

  /** A number is optional, but an empty one is not a number. */
  function OptionalNumber(cv: Converters, raw: Option<string>, field: string): Result<Option<real>, Fault> {
    if raw.None? then Ok(None)
    else if cv.number(raw.value).None? then Err(Fault(field, NotANumber))
    else Ok(cv.number(raw.value))
  }

  function ParseDays(cv: Converters, name: string, f: FilterDef, q: Query): Result<Option<Parsed>, Fault> {
    var rawFrom, rawTo := Get(q, name + "_from"), Get(q, name + "_to");
    if (rawFrom.None? || rawFrom.value == "") && (rawTo.None? || rawTo.value == "") then Absent(f, name + "_from")
    else
      var start, end := OptionalDay(cv, rawFrom, name + "_from"), OptionalDay(cv, rawTo, name + "_to");
      if start.Err? then Err(start.error)
      else if end.Err? then Err(end.error)
      else if start.value.Some? && end.value.Some? && start.value.value > end.value.value then
        Err(Fault(name + "_from", EmptyRange))
      else Ok(Some(Days(start.value, end.value)))
  }

  function ParseNumbers(cv: Converters, name: string, f: FilterDef, q: Query): Result<Option<Parsed>, Fault> {
    var rawMin, rawMax := Get(q, name + "_min"), Get(q, name + "_max");
    if rawMin.None? && rawMax.None? then Absent(f, name + "_min")
    else
      var low, high := OptionalNumber(cv, rawMin, name + "_min"), OptionalNumber(cv, rawMax, name + "_max");
      if low.Err? then Err(low.error)
      else if high.Err? then Err(high.error)
      else if low.value.Some? && high.value.Some? && low.value.value > high.value.value then
        Err(Fault(name + "_min", EmptyRange))
      else Ok(Some(Numbers(low.value, high.value)))
  }

  function ParseMany(name: string, f: FilterDef, q: Query): Result<Option<Parsed>, Fault> {
    var values := GetList(q, name);
    if values == [] then Absent(f, name)
    else if f.choices != {} && exists v :: v in values && v !in f.choices then Err(Fault(name, NotAChoice))
    else Ok(Some(Many(values)))
  }

  /** Python's `str` of an optional identifier. */
  function Shown(id: Option<string>): string {
    if id.Some? then id.value else "None"
  }

  /** `_parse_one`, branch by branch. */
  function ParseOne(cv: Converters, name: string, f: FilterDef, q: Query): Result<Option<Parsed>, Fault> {
    var raw := Get(q, name);
    var given := raw.Some? && raw.value != "";
    if f.kind == "date_range" then ParseDays(cv, name, f, q)
    else if f.kind == "number_range" then ParseNumbers(cv, name, f, q)
    else if f.kind == "multi_select" then ParseMany(name, f, q)
    else if f.kind == "entity" then
      if given && raw.value != q.entity then Err(Fault(name, OtherTenant)) else Ok(Some(Text(q.entity)))
    else if f.kind == "branch" then
      if given && raw.value != Shown(q.branch) then Err(Fault(name, OtherTenant))
      else if q.branch.Some? && q.branch.value != "" then Ok(Some(Text(q.branch.value)))
      else Ok(None)
    else if raw.None? then Absent(f, name)
    else ParseText(cv, name, f, raw.value)
  }

  function ParseText(cv: Converters, name: string, f: FilterDef, raw: string): Result<Option<Parsed>, Fault> {
    if f.kind == "date" then
      if cv.date(raw).Some? then Ok(Some(Day(cv.date(raw).value))) else Err(Fault(name, NotADate))
    else if f.kind == "month" then
      if cv.month(raw).Some? then Ok(Some(Day(cv.month(raw).value))) else Err(Fault(name, NotAMonth))
    else if f.kind == "year" then
      if cv.integer(raw).None? then Err(Fault(name, NotAYear))
      else if cv.integer(raw).value < 1900 || cv.integer(raw).value > 2200 then Err(Fault(name, YearOutOfRange))
      else Ok(Some(Year(cv.integer(raw).value)))
    else if f.kind == "number" then
      if cv.number(raw).Some? then Ok(Some(Number(cv.number(raw).value))) else Err(Fault(name, NotANumber))
    else if f.kind == "boolean" then
      if cv.lower(raw) in ["true", "1", "yes"] then Ok(Some(Flag(true)))
      else if cv.lower(raw) in ["false", "0", "no"] then Ok(Some(Flag(false)))
      else Err(Fault(name, NotABool))
    else if f.kind == "select" || f.kind == "status" then
      if f.choices != {} && raw !in f.choices then Err(Fault(name, NotAChoice)) else Ok(Some(Text(raw)))
    else Ok(Some(Text(raw)))
  }

  // ---------------------------------------------------------------------------------------------
  // The error map
  // ---------------------------------------------------------------------------------------------

  predicate Known(defs: map<string, FilterDef>, key: string) {
    key in RESERVED || exists n :: n in defs && key in ParamNames(n, defs[n].kind)
  }

  predicate Accepts(cv: Converters, defs: map<string, FilterDef>, q: Query) {
    && (forall key :: key in q.params ==> Known(defs, key))
    && (forall n :: n in defs ==> ParseOne(cv, n, defs[n], q).Ok?)
  }

  function Values(cv: Converters, defs: map<string, FilterDef>, q: Query): map<string, Parsed> {
    map n | n in defs && ParseOne(cv, n, defs[n], q).Ok? && ParseOne(cv, n, defs[n], q).value.Some?
      :: ParseOne(cv, n, defs[n], q).value.value
  }

  function Complain(errors: map<string, seq<Complaint>>, field: string, c: Complaint): (r: map<string, seq<Complaint>>)
    ensures r.Keys == errors.Keys + {field}
    ensures forall g :: g in r && g != field ==> r[g] == errors[g]
    ensures forall x :: x in r[field] <==> x == c || (field in errors && x in errors[field])
  {
    errors[field := (if field in errors then errors[field] else []) + [c]]
  }

  /** Some message for the field, and exactly these messages. */
  predicate Lists(errors: map<string, seq<Complaint>>, field: string, c: Complaint) {
    field in errors && c in errors[field]
  }

  method AllowedParams(defs: map<string, FilterDef>) returns (allowed: set<string>)
    ensures forall key :: key in allowed <==> exists n :: n in defs && key in ParamNames(n, defs[n].kind)
  {
    allowed := {};
    var rest := defs.Keys;
    while rest != {}
      invariant rest <= defs.Keys
      invariant forall key :: key in allowed <==>
                exists n :: n in defs && n !in rest && key in ParamNames(n, defs[n].kind)
      decreases |rest|
    {
      var name :| name in rest;
      allowed := allowed + ParamNames(name, defs[name].kind);
      rest := rest - {name};
    }
  }

  method UnknownParams(defs: map<string, FilterDef>, q: Query) returns (errors: map<string, seq<Complaint>>)
    ensures forall key :: key in errors <==> key in q.params && !Known(defs, key)
    ensures forall key :: key in errors ==> errors[key] == [UnknownFilter]
  {
    var allowed := AllowedParams(defs);
    errors := map[];
    var rest := q.params.Keys;
    while rest != {}
      invariant rest <= q.params.Keys
      invariant forall key :: key in errors <==> key in q.params.Keys - rest && !Known(defs, key)
      invariant forall key :: key in errors ==> errors[key] == [UnknownFilter]
      decreases |rest|
    {
      var key :| key in rest;
      if key !in RESERVED && key !in allowed {
        errors := Complain(errors, key, UnknownFilter);
      }
      rest := rest - {key};
    }
  }

  /** `c` must be reported for `field`: an unknown parameter, or what parsing a filter of `done` raises. */
  predicate ReportedOf(cv: Converters, defs: map<string, FilterDef>, q: Query, done: set<string>, field: string,
                       c: Complaint)
    requires done <= defs.Keys
  {
    || (field in q.params && !Known(defs, field) && c == UnknownFilter)
    || (exists n :: n in done && ParseOne(cv, n, defs[n], q) == Err(Fault(field, c)))
  }

  ghost predicate ListsExactly(errors: map<string, seq<Complaint>>, cv: Converters, defs: map<string, FilterDef>,
                               q: Query, done: set<string>)
    requires done <= defs.Keys
  {
    && (forall field :: field in errors ==> errors[field] != [])
    && (forall field, c :: Lists(errors, field, c) <==> ReportedOf(cv, defs, q, done, field, c))
  }

  lemma ListsOneMore(errors: map<string, seq<Complaint>>, cv: Converters, defs: map<string, FilterDef>, q: Query,
                     done: set<string>, name: string)
    requires done <= defs.Keys && name in defs && ListsExactly(errors, cv, defs, q, done)
    ensures var one := ParseOne(cv, name, defs[name], q);
      ListsExactly(if one.Err? then Complain(errors, one.error.field, one.error.complaint) else errors,
                   cv, defs, q, done + {name})
  {
    var one := ParseOne(cv, name, defs[name], q);
    var errors' := if one.Err? then Complain(errors, one.error.field, one.error.complaint) else errors;
    forall field, c
      ensures Lists(errors', field, c) <==> Lists(errors, field, c) || one == Err(Fault(field, c))
      ensures ReportedOf(cv, defs, q, done + {name}, field, c) <==>
                ReportedOf(cv, defs, q, done, field, c) || one == Err(Fault(field, c))
    {
    }
  }

  lemma EmptyExactly(errors: map<string, seq<Complaint>>, cv: Converters, defs: map<string, FilterDef>, q: Query)
    requires ListsExactly(errors, cv, defs, q, defs.Keys)
    ensures errors == map[] <==> Accepts(cv, defs, q)
  {
    if errors != map[] {
      var field :| field in errors;
      assert Lists(errors, field, errors[field][0]);
    }
    if n :| n in defs && ParseOne(cv, n, defs[n], q).Err? {
      var e := ParseOne(cv, n, defs[n], q).error;
      assert ReportedOf(cv, defs, q, defs.Keys, e.field, e.complaint);
      assert Lists(errors, e.field, e.complaint);
    } else if key :| key in q.params && !Known(defs, key) {
      assert ReportedOf(cv, defs, q, defs.Keys, key, UnknownFilter);
      assert Lists(errors, key, UnknownFilter);
    }
  }

  lemma ParsedOneMore(cv: Converters, defs: map<string, FilterDef>, q: Query, rest: set<string>, name: string)
    requires name in rest && rest <= defs.Keys
    ensures var one := ParseOne(cv, name, defs[name], q);
            var left := Values(cv, defs, q) - rest;
      Values(cv, defs, q) - (rest - {name})
      == if one.Ok? && one.value.Some? then left[name := one.value.value] else left
  {
  }

  lemma UnknownListed(errors: map<string, seq<Complaint>>, cv: Converters, defs: map<string, FilterDef>, q: Query)
    requires forall key :: key in errors <==> key in q.params && !Known(defs, key)
    requires forall key :: key in errors ==> errors[key] == [UnknownFilter]
    ensures ListsExactly(errors, cv, defs, q, {})
  {
  }

  /** One filter: either its value or its complaint is added. */
  method ParseNext(cv: Converters, defs: map<string, FilterDef>, q: Query, ghost rest: set<string>, name: string,
                   fields: map<string, seq<Complaint>>, parsed: map<string, Parsed>)
    returns (fields': map<string, seq<Complaint>>, parsed': map<string, Parsed>)
    requires rest <= defs.Keys && name in rest
    requires ListsExactly(fields, cv, defs, q, defs.Keys - rest) && parsed == Values(cv, defs, q) - rest
    ensures ListsExactly(fields', cv, defs, q, defs.Keys - (rest - {name}))
    ensures parsed' == Values(cv, defs, q) - (rest - {name})
  {
    ListsOneMore(fields, cv, defs, q, defs.Keys - rest, name);
    ParsedOneMore(cv, defs, q, rest, name);
    assert defs.Keys - (rest - {name}) == (defs.Keys - rest) + {name};
    var one := ParseOne(cv, name, defs[name], q);
    fields', parsed' := fields, parsed;
    if one.Err? {
      fields' := Complain(fields, one.error.field, one.error.complaint);
    } else if one.value.Some? {
      parsed' := parsed[name := one.value.value];
    }
  }

  /** The loop over the filters: collects the values that parse and the complaints of those that do not. */
  method ParseAll(cv: Converters, defs: map<string, FilterDef>, q: Query, unknown: map<string, seq<Complaint>>)
    returns (fields: map<string, seq<Complaint>>, parsed: map<string, Parsed>)
    requires ListsExactly(unknown, cv, defs, q, {})
    ensures ListsExactly(fields, cv, defs, q, defs.Keys)
    ensures parsed == Values(cv, defs, q)
  {
    fields, parsed := unknown, map[];
    var rest := defs.Keys;
    assert defs.Keys - rest == {};
    while rest != {}
      invariant rest <= defs.Keys
      invariant ListsExactly(fields, cv, defs, q, defs.Keys - rest)
      invariant parsed == Values(cv, defs, q) - rest
      decreases |rest|
    {
      var name :| name in rest;
      fields, parsed := ParseNext(cv, defs, q, rest, name, fields, parsed);
      rest := rest - {name};
    }
    assert defs.Keys - rest == defs.Keys;
  }

  /**
    Returns exactly when every parameter is reserved or belongs to a filter and every filter parses; then
    with the value of each filter that has one. Otherwise the error map lists, for every field, exactly
    the complaints about it.
   */
  method ValidateAndParse(cv: Converters, defs: map<string, FilterDef>, q: Query)
    returns (r: Result<map<string, Parsed>, map<string, seq<Complaint>>>)
    ensures r.Ok? <==> Accepts(cv, defs, q)
    ensures r.Ok? ==> r.value == Values(cv, defs, q)
    ensures r.Err? ==> ListsExactly(r.error, cv, defs, q, defs.Keys)
  {
    var unknown := UnknownParams(defs, q);
    UnknownListed(unknown, cv, defs, q);
    var fields, parsed := ParseAll(cv, defs, q, unknown);
    EmptyExactly(fields, cv, defs, q);
    r := if fields != map[] then Err(fields) else Ok(parsed);
  }

  /** The fields the error map covers. */
  function BadFields(cv: Converters, defs: map<string, FilterDef>, q: Query): set<string> {
    (set key | key in q.params && !Known(defs, key))
    + (set n | n in defs && ParseOne(cv, n, defs[n], q).Err? :: ParseOne(cv, n, defs[n], q).error.field)
  }

  /** The error map covers every offending parameter and every failing filter, and no other field. */
  lemma ErrorsCover(errors: map<string, seq<Complaint>>, cv: Converters, defs: map<string, FilterDef>, q: Query)
    requires ListsExactly(errors, cv, defs, q, defs.Keys)
    ensures errors.Keys == BadFields(cv, defs, q)
  {
    forall field | field in errors
      ensures field in BadFields(cv, defs, q)
    {
      assert Lists(errors, field, errors[field][0]);
    }
    forall n | n in defs && ParseOne(cv, n, defs[n], q).Err?
      ensures ParseOne(cv, n, defs[n], q).error.field in errors
    {
      var e := ParseOne(cv, n, defs[n], q).error;
      assert ReportedOf(cv, defs, q, defs.Keys, e.field, e.complaint);
      assert Lists(errors, e.field, e.complaint);
    }
    forall key | key in q.params && !Known(defs, key)
      ensures key in errors
    {
      assert Lists(errors, key, UnknownFilter);
    }
  }

  // ---------------------------------------------------------------------------------------------
  // What the values mean
  // ---------------------------------------------------------------------------------------------

  /** Ranges are in order, choices are among the declared ones, years are plausible, tenants are the request's own. */
  predicate WellTyped(f: FilterDef, q: Query, v: Parsed) {
    match f.kind
    case "date_range" => v.Days? && (v.start.Some? || v.end.Some?) &&
        (v.start.Some? && v.end.Some? ==> v.start.value <= v.end.value)
    case "number_range" => v.Numbers? && (v.low.Some? || v.high.Some?) &&
        (v.low.Some? && v.high.Some? ==> v.low.value <= v.high.value)
    case "multi_select" => v.Many? && v.values != [] &&
        (f.choices != {} ==> forall x :: x in v.values ==> x in f.choices)
    case "entity" => v == Text(q.entity)
    case "branch" => q.branch.Some? && v == Text(q.branch.value)
    case "date" => v.Day?
    case "month" => v.Day?
    case "year" => v.Year? && 1900 <= v.year <= 2200
    case "number" => v.Number?
    case "boolean" => v.Flag?
    case _ => v.Text? && (f.kind == "select" || f.kind == "status" ==> f.choices != {} ==> v.text in f.choices)
  }

  /** The last value given for a key, if any. */
  ghost function LastGiven(q: Query, key: string): Option<string> {
    if key in q.params && q.params[key] != [] then Some(q.params[key][|q.params[key]| - 1]) else None
  }

  /** The optional bound of a range: what the last text given converts to; an empty date counts as none. */
  ghost predicate DayGiven(cv: Converters, raw: Option<string>, day: Option<int>) {
    if raw in {None, Some("")} then day == None else day.Some? && day == cv.date(raw.value)
  }

  ghost predicate NumberGiven(cv: Converters, raw: Option<string>, number: Option<real>) {
    if raw == None then number == None else number.Some? && number == cv.number(raw.value)
  }

  /** A single value, in terms of the text it was parsed from. */
  ghost predicate TextDenotes(cv: Converters, kind: string, raw: string, v: Parsed) {
    match kind
    case "date" => v.Day? && cv.date(raw) == Some(v.day)
    case "month" => v.Day? && cv.month(raw) == Some(v.day)
    case "year" => v.Year? && cv.integer(raw) == Some(v.year)
    case "number" => v.Number? && cv.number(raw) == Some(v.number)
    case "boolean" =>
      || (v == Flag(true) && cv.lower(raw) in {"true", "1", "yes"})
      || (v == Flag(false) && cv.lower(raw) in {"false", "0", "no"})
    case _ => v == Text(raw)
  }

  /** What a parsed value is, in terms of the request's own parameters and tenant. */
  ghost predicate Denotes(cv: Converters, name: string, f: FilterDef, q: Query, v: Parsed) {
    match f.kind
    case "date_range" =>
      v.Days? && DayGiven(cv, LastGiven(q, name + "_from"), v.start) && DayGiven(cv, LastGiven(q, name + "_to"), v.end)
    case "number_range" =>
      && v.Numbers?
      && NumberGiven(cv, LastGiven(q, name + "_min"), v.low) && NumberGiven(cv, LastGiven(q, name + "_max"), v.high)
    case "multi_select" => name in q.params && v == Many(q.params[name])
    case "entity" => v == Text(q.entity)
    case "branch" => q.branch.Some? && v == Text(q.branch.value)
    case _ => LastGiven(q, name).Some? && TextDenotes(cv, f.kind, LastGiven(q, name).value, v)
  }

  /** The request is bound to a branch. */
  predicate HasBranch(q: Query) {
    q.branch.Some? && q.branch.value != ""
  }

  /** An empty text does not count as a value for dates and tenant identifiers. */
  predicate Counts(f: FilterDef, raw: string) {
    f.kind == "date_range" || f.kind == "entity" || f.kind == "branch" ==> raw != ""
  }

  /** The request gives the filter some value. */
  predicate Given(name: string, f: FilterDef, q: Query) {
    exists key :: key in ParamNames(name, f.kind) && Get(q, key).Some? && Counts(f, Get(q, key).value)
  }

  lemma ParsedIsWellTyped(cv: Converters, name: string, f: FilterDef, q: Query)
    requires ParseOne(cv, name, f, q).Ok?
    ensures var v := ParseOne(cv, name, f, q).value;
      && (v.Some? ==> WellTyped(f, q, v.value) && Denotes(cv, name, f, q, v.value))
      && (f.kind == "entity" ==> v.Some?)
      && (f.kind == "branch" ==> (v.Some? <==> HasBranch(q)))
      && (f.required && f.kind != "branch" ==> v.Some?)
      && (f.kind != "entity" && f.kind != "branch" ==> (v.Some? <==> Given(name, f, q)))
  {
    if f.kind == "date_range" {
      assert ParamNames(name, f.kind) == {name + "_from", name + "_to"};
    } else if f.kind == "number_range" {
      assert ParamNames(name, f.kind) == {name + "_min", name + "_max"};
    } else {
      assert ParamNames(name, f.kind) == {name};
    }
  }

  /** One given text is of the filter's type. */
  predicate Converts(cv: Converters, f: FilterDef, q: Query, raw: string) {
    match f.kind
    case "date_range" => cv.date(raw).Some?
    case "date" => cv.date(raw).Some?
    case "month" => cv.month(raw).Some?
    case "year" => cv.integer(raw).Some? && 1900 <= cv.integer(raw).value <= 2200
    case "number_range" => cv.number(raw).Some?
    case "number" => cv.number(raw).Some?
    case "boolean" => cv.lower(raw) in ["true", "1", "yes", "false", "0", "no"]
    case "entity" => raw == q.entity
    case "branch" => raw == if q.branch == None then "None" else q.branch.value
    case _ => f.kind == "select" || f.kind == "status" ==> f.choices == {} || raw in f.choices
  }

  /**
    Whatever is given converts, ranges are in order, and every required filter is given a value, except that
    entity and branch need none: they are taken from the request, even if it has no branch.
   */
  predicate Acceptable(cv: Converters, name: string, f: FilterDef, q: Query) {
    && (forall key :: key in ParamNames(name, f.kind) && Get(q, key).Some? && Counts(f, Get(q, key).value) ==>
          Converts(cv, f, q, Get(q, key).value))
    && (f.kind == "date_range" ==>
        InOrder(Get(q, name + "_from"), Get(q, name + "_to"), raw => if raw == "" then None else DayOf(cv, raw)))
    && (f.kind == "number_range" ==> InOrder(Get(q, name + "_min"), Get(q, name + "_max"), cv.number))
    && (f.kind == "multi_select" ==> f.choices == {} || forall v :: v in GetList(q, name) ==> v in f.choices)
    && (f.required && !(f.kind == "entity" || f.kind == "branch") ==> Given(name, f, q))
  }

  function DayOf(cv: Converters, raw: string): Option<real> {
    if cv.date(raw).Some? then Some(cv.date(raw).value as real) else None
  }

  predicate InOrder(low: Option<string>, high: Option<string>, measure: string -> Option<real>) {
    low.Some? && high.Some? && measure(low.value).Some? && measure(high.value).Some? ==>
      measure(low.value).value <= measure(high.value).value
  }

  lemma RangesParseExactly(cv: Converters, name: string, f: FilterDef, q: Query)
    requires f.kind == "date_range" || f.kind == "number_range"
    ensures ParseOne(cv, name, f, q).Ok? <==> Acceptable(cv, name, f, q)
  {
    var keys := ParamNames(name, f.kind);
    if f.kind == "date_range" {
      assert keys == {name + "_from", name + "_to"};
      assert name + "_from" in keys && name + "_to" in keys;
    } else {
      assert keys == {name + "_min", name + "_max"};
      assert name + "_min" in keys && name + "_max" in keys;
    }
  }

  /** Parsing succeeds exactly on acceptable input. */
  lemma ParsesExactly(cv: Converters, name: string, f: FilterDef, q: Query)
    ensures ParseOne(cv, name, f, q).Ok? <==> Acceptable(cv, name, f, q)
  {
    if f.kind == "date_range" || f.kind == "number_range" {
      RangesParseExactly(cv, name, f, q);
    } else {
      assert ParamNames(name, f.kind) == {name};
      assert name in ParamNames(name, f.kind);
    }
  }

  /** Both bounds are given and convert, the lower one to more than the upper one. */
  ghost predicate Reversed(low: Option<string>, high: Option<string>, measure: string -> Option<real>) {
    && low.Some? && high.Some? && measure(low.value).Some? && measure(high.value).Some?
    && measure(low.value).value > measure(high.value).value
  }

  /** What each complaint says about the text it is filed under, or about the filter. */
  ghost predicate Holds(cv: Converters, f: FilterDef, q: Query, name: string, e: Fault) {
    var raw := LastGiven(q, e.field);
    var text := if raw == None then "" else raw.value;
    match e.complaint
    case UnknownFilter => false
    case Missing => f.required && !Given(name, f, q)
    case NotADate => f.kind in {"date", "date_range"} && raw.Some? && cv.date(text) == None
    case NotAMonth => f.kind == "month" && raw.Some? && cv.month(text) == None
    case NotAYear => f.kind == "year" && raw.Some? && cv.integer(text) == None
    case YearOutOfRange =>
      f.kind == "year" && raw.Some? && cv.integer(text).Some? && !(1900 <= cv.integer(text).value <= 2200)
    case NotANumber => f.kind in {"number", "number_range"} && raw.Some? && cv.number(text) == None
    case NotABool =>
      f.kind == "boolean" && raw.Some? && cv.lower(text) !in {"true", "1", "yes", "false", "0", "no"}
    case NotAChoice =>
      && f.choices != {} && name in q.params
      && if f.kind == "multi_select" then exists v :: v in q.params[name] && v !in f.choices
         else f.kind in {"select", "status"} && raw.Some? && text !in f.choices
    case EmptyRange =>
      || (f.kind == "date_range"
          && Reversed(LastGiven(q, name + "_from"), LastGiven(q, name + "_to"), raw => DayOf(cv, raw)))
      || (f.kind == "number_range" && Reversed(LastGiven(q, name + "_min"), LastGiven(q, name + "_max"), cv.number))
    case OtherTenant =>
      && raw.Some? && text != ""
      && ((f.kind == "entity" && text != q.entity)
          || (f.kind == "branch" && text != if q.branch == None then "None" else q.branch.value))
  }

  lemma DayFaultsAreTrue(cv: Converters, name: string, f: FilterDef, q: Query)
    requires f.kind == "date_range"
    ensures var r := ParseOne(cv, name, f, q); r.Err? ==> Holds(cv, f, q, name, r.error)
  {
    assert ParamNames(name, f.kind) == {name + "_from", name + "_to"};
  }

  lemma NumberFaultsAreTrue(cv: Converters, name: string, f: FilterDef, q: Query)
    requires f.kind == "number_range"
    ensures var r := ParseOne(cv, name, f, q); r.Err? ==> Holds(cv, f, q, name, r.error)
  {
    assert ParamNames(name, f.kind) == {name + "_min", name + "_max"};
  }

  /** Every complaint is true. */
  lemma FaultsAreTrue(cv: Converters, name: string, f: FilterDef, q: Query)
    ensures var r := ParseOne(cv, name, f, q); r.Err? ==> Holds(cv, f, q, name, r.error)
  {
    if f.kind == "date_range" {
      DayFaultsAreTrue(cv, name, f, q);
    } else if f.kind == "number_range" {
      NumberFaultsAreTrue(cv, name, f, q);
    } else {
      assert ParamNames(name, f.kind) == {name};
    }
  }

  /** Four names are reserved; every other parameter must be a filter's own, or one of the two ends of its range. */
  lemma KnownExactly(defs: map<string, FilterDef>, key: string)
    ensures Known(defs, key) <==>
            || key == "scope" || key == "page" || key == "page_size" || key == "format"
            || exists n :: n in defs &&
                 (if defs[n].kind == "date_range" then key == n + "_from" || key == n + "_to"
                  else if defs[n].kind == "number_range" then key == n + "_min" || key == n + "_max"
                  else key == n)
  {
  }

  /** A parameter that a filter's complaint is filed under is one of that filter's own. */
  lemma FaultsStayHome(cv: Converters, name: string, f: FilterDef, q: Query)
    ensures var r := ParseOne(cv, name, f, q); r.Err? ==> r.error.field in ParamNames(name, f.kind)
  {
  }

  /**
    What reaches a provider for a validated widget: only filters it has, each value of its filter's type, and
    for entity and branch never anything but the request's own. An entity is always there; a branch exactly if
    the request has one; and of the other filters every required one.
   */
  lemma ValuesAreSafe(cv: Converters, d: Dashboard, w: Widget, q: Query)
    requires ValidDashboard(d) && w in WidgetsOf(d) && Accepts(cv, Resolved(d.head, w), q)
    ensures var defs := Resolved(d.head, w);
            var values := Values(cv, defs, q);
      && (forall n :: n in values ==>
            && (n in w.accepts || n in FilterNames(ListOf(w.filters)))
            && n in defs && WellTyped(defs[n], q, values[n]) && Denotes(cv, n, defs[n], q, values[n]))
      && (forall n :: n in defs && defs[n].kind == "entity" ==> n in values && values[n] == Text(q.entity))
      && (forall n :: n in defs && defs[n].kind == "branch" ==> (n in values <==> HasBranch(q)))
      && (forall n :: n in defs && defs[n].required ==> (n in values <==> defs[n].kind != "branch" || HasBranch(q)))
  {
    var defs := Resolved(d.head, w);
    ResolvedExactly(d, w);
    EachParsed(cv, defs, q);
  }

  lemma EachParsed(cv: Converters, defs: map<string, FilterDef>, q: Query)
    requires Accepts(cv, defs, q)
    ensures forall n :: n in defs ==>
              var v := ParseOne(cv, n, defs[n], q).value;
              && (v.Some? ==> WellTyped(defs[n], q, v.value) && Denotes(cv, n, defs[n], q, v.value))
              && (defs[n].kind == "entity" ==> v.Some?)
              && (defs[n].kind == "branch" ==> (v.Some? <==> HasBranch(q)))
              && (defs[n].required && defs[n].kind != "branch" ==> v.Some?)
  {
    forall n | n in defs
      ensures var v := ParseOne(cv, n, defs[n], q).value;
        && (v.Some? ==> WellTyped(defs[n], q, v.value) && Denotes(cv, n, defs[n], q, v.value))
        && (defs[n].kind == "entity" ==> v.Some?)
        && (defs[n].kind == "branch" ==> (v.Some? <==> HasBranch(q)))
        && (defs[n].required && defs[n].kind != "branch" ==> v.Some?)
    {
      ParsedIsWellTyped(cv, n, defs[n], q);
    }
  }

  /** Exactly when an accepted request leaves no required filter without a value. */
  lemma RequiredPresentExactly(cv: Converters, defs: map<string, FilterDef>, q: Query)
    requires Accepts(cv, defs, q)
    ensures (forall n :: n in defs && defs[n].required ==> n in Values(cv, defs, q)) <==>
            HasBranch(q) || forall n :: n in defs && defs[n].required ==> defs[n].kind != "branch"
  {
    EachParsed(cv, defs, q);
  }

  const BRANCH_FILTER := FilterDef(true, "branch", "branch", true, {}, true)
  const FULL_ROW := Cols(map["xs" := Span(12)])
  const BRANCH_WIDGET :=
    Widget(true, "w", "stat", "p", true, [], "any", Items([BRANCH_FILTER]), [], true, Listing.Absent, Listing.Absent,
        None, None, 1, FULL_ROW)
  const BRANCH_DASHBOARD :=
    Dashboard(Head(true, "1.0", "d", "t", None, Listing.Absent, WidgetList, NoPermission, true, true, 1),
        [BRANCH_WIDGET])

  lemma BranchDashboardIsValid()
    ensures ValidDashboard(BRANCH_DASHBOARD)
  {
    var placed := Placed("w", 1, FULL_ROW);
    assert PlacedWidgets([BRANCH_WIDGET]) == [placed] by {
      assert [BRANCH_WIDGET][1..] == [];
    }
    assert Ordered([placed]) == [placed] by {
      assert [placed][1..] == [];
    }
    forall b | 0 <= b < |BREAKPOINTS|
      ensures FillsRows([placed], b)
    {
      FullRowFills(placed, b);
    }
  }

  lemma {:induction false} FullIsFull(m: map<string, int>, b: nat)
    requires b < |BREAKPOINTS| && forall x :: x in m ==> m[x] == 12
    ensures NearestDeclared(m, b) == 12
  {
    if b > 0 {
      FullIsFull(m, b - 1);
    }
  }

  lemma FullRowFills(p: Placed, b: nat)
    requires p.cols == FULL_ROW && b < |BREAKPOINTS| && Ordered([p]) == [p]
    ensures FillsRows([p], b)
  {
    var m := Columns(FULL_ROW);
    assert "xs" in m && m["xs"] == 12;
    FullIsFull(m, b);
    assert Spans([p], b) == [12];
    assert [12][1..] == [] && Sum([12]) == 12;
    var rows := [[12]];
    assert rows[1..] == [] && Flatten(rows) == [12] && FullRows(rows);
  }

  /** A validated widget requires a branch, the request has none, and it is accepted: the provider gets no branch. */
  lemma RequiredBranchIsAbsent(cv: Converters)
    ensures var defs := Resolved(BRANCH_DASHBOARD.head, BRANCH_WIDGET);
            var q := Query(map[], "e", None);
      && ValidDashboard(BRANCH_DASHBOARD) && BRANCH_WIDGET in WidgetsOf(BRANCH_DASHBOARD)
      && "branch" in defs && defs["branch"].required
      && Accepts(cv, defs, q) && "branch" !in Values(cv, defs, q)
  {
    BranchDashboardIsValid();
    var defs := Resolved(BRANCH_DASHBOARD.head, BRANCH_WIDGET);
    var q := Query(map[], "e", None);
    ResolvedExactly(BRANCH_DASHBOARD, BRANCH_WIDGET);
    assert FilterNames([BRANCH_FILTER]) == ["branch"];
    assert "branch" in FilterNames(ListOf(BRANCH_WIDGET.filters));
    assert forall n :: n in defs ==> n == "branch";
    assert defs["branch"] == BRANCH_FILTER;
    assert ParseOne(cv, "branch", BRANCH_FILTER, q) == Ok(None);
  }

  /** A filter's outcome depends only on its own parameters and on the request's tenant. */
  lemma OtherParamsAreIgnored(cv: Converters, name: string, f: FilterDef, q: Query, q': Query)
    requires q.entity == q'.entity && q.branch == q'.branch
    requires forall key :: key in ParamNames(name, f.kind) ==> GetList(q, key) == GetList(q', key)
    ensures ParseOne(cv, name, f, q) == ParseOne(cv, name, f, q')
  {
    if f.kind == "date_range" {
      assert name + "_from" in ParamNames(name, f.kind) && name + "_to" in ParamNames(name, f.kind);
    } else if f.kind == "number_range" {
      assert name + "_min" in ParamNames(name, f.kind) && name + "_max" in ParamNames(name, f.kind);
    } else {
      assert name in ParamNames(name, f.kind);
    }
  }
}
