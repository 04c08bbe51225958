/** The dashboard endpoints: each works on its own copy, which it and its providers may change as they like. */
module Views {
  import opened Wrappers
  import opened Dashboards
  import opened Filters
  import opened Layout
  import opened Registry

  /** A provider is opaque: what it returns is some function of what it is given. */
  type Provider = (Dashboard, Widget, map<string, Parsed>) -> string

  datatype Request =
    | DetailRequest(caller: Caller, name: string)
    | WidgetRequest(caller: Caller, name: string, widget: string, query: Query)

  datatype Response =
    | Shown(dashboard: Dashboard)
    | Data(kind: string, data: string)
    | Refused(error: EngineError)
    | Raised  // an exception that no handler turns into a response of its own

  // ---------------------------------------------------------------------------------------------
  // What each request must be answered with
  // ---------------------------------------------------------------------------------------------

  function DetailAnswer(c: Caller, d: Dashboard): Response {
    var gate := Gate(c, d.head);
    if gate.Err? then Refused(gate.error)
    else if d.head.widgetsEntry != WidgetList then Raised
    else Shown(d.(widgets := FilterWidgets(c, d.widgets)))
  }

  ghost function WidgetAnswer(cv: Converters, providers: map<string, Provider>, c: Caller, d: Dashboard, name: string,
                              q: Query): Response {
    var gate := Gate(c, d.head);
    var found := FindWidget(c, d.widgets, name);
    if gate.Err? then Refused(gate.error)
    else if d.head.widgetsEntry != WidgetList then Raised
    else if found.Err? then Refused(found.error)
    else
      var defs := Resolved(d.head, found.value);
      if !Accepts(cv, defs, q) then Refused(BadFilters(BadFields(cv, defs, q)))
      else if found.value.provider !in providers then Refused(UnknownProvider)
      else Data(found.value.kind, providers[found.value.provider](d, found.value, Values(cv, defs, q)))
  }

  /** A function of the registered configuration and of this request only. */
  ghost function Answer(contents: map<string, Dashboard>, cv: Converters, providers: map<string, Provider>,
                        r: Request): Response {
    if r.name !in contents then Refused(DashboardNotFound)
    else match r
      case DetailRequest(c, name) => DetailAnswer(c, contents[name])
      case WidgetRequest(c, name, widget, q) => WidgetAnswer(cv, providers, c, contents[name], widget, q)
  }

  /** The module of a dashboard is its "module" entry, or its name where that entry is missing or empty. */
  ghost function ModuleOf(h: Head): string {
    if h.app == None || h.app == Some("") then h.name else h.app.value
  }

  /** The module must be active; then the permission must be absent, empty or granted. */
  lemma GateExactly(c: Caller, h: Head)
    ensures Gate(c, h) == Err(ModuleNotActive) <==> ModuleOf(h) !in c.modules
    ensures Gate(c, h) == Err(Unauthorized) <==>
            ModuleOf(h) in c.modules && h.permission.Codename? && h.permission.name !in c.granted + {""}
    ensures Gate(c, h).Err? ==> Gate(c, h).error == ModuleNotActive || Gate(c, h).error == Unauthorized
  {
  }

  /** The two endpoints never disagree on what a caller may see of a validated dashboard. */
  lemma DetailShowsWhatWidgetServes(c: Caller, d: Dashboard, name: string, cv: Converters,
                                    providers: map<string, Provider>, q: Query)
    requires ValidDashboard(d)
    ensures var detail := DetailAnswer(c, d);
            var served := WidgetAnswer(cv, providers, c, d, name, q);
      && (detail.Refused? ==> served == detail)
      && (detail.Raised? <==> served.Raised?)
      && (detail.Shown? ==>
            ((exists w :: w in detail.dashboard.widgets && w.name == name) <==>
             served.Data? || served.error.BadFilters? || served.error.UnknownProvider?))
  {
    EndpointsAgree(c, d, name);
    FindErrors(c, d.widgets, name);
  }

  /**
    A validated dashboard makes both endpoints raise exactly if its "widgets" entry is null and the caller may
    see it.
   */
  lemma NullWidgetsRaise(c: Caller, d: Dashboard, name: string, cv: Converters, providers: map<string, Provider>,
                         q: Query)
    requires ValidDashboard(d)
    ensures DetailAnswer(c, d).Raised? <==>
            && d.head.widgetsEntry == NullEntry && ModuleOf(d.head) in c.modules
            && (d.head.permission == NoPermission || d.head.permission.name in c.granted + {""})
    ensures WidgetAnswer(cv, providers, c, d, name, q).Raised? <==> DetailAnswer(c, d).Raised?
  {
    GateExactly(c, d.head);
  }

  const NULL_DASHBOARD :=
    Dashboard(Head(true, "1.0", "d", "t", None, Listing.Absent, NullEntry, NoPermission, true, true, 1), [])

  /** Such a dashboard passes the validator. */
  lemma NullWidgetsAreValid()
    ensures ValidDashboard(NULL_DASHBOARD)
    ensures forall c: Caller :: "d" in c.modules ==> DetailAnswer(c, NULL_DASHBOARD).Raised?
  {
    forall b | 0 <= b < |BREAKPOINTS|
      ensures FillsRows([], b)
    {
      EmptyTiles();
      assert Spans(Ordered([]), b) == [];
    }
  }

  /** More permissions or modules never hide anything: not the dashboard, and none of its widgets. */
  lemma GrantingNeverHides(c: Caller, more: Caller, d: Dashboard, name: string)
    requires c.granted <= more.granted && c.modules <= more.modules && DetailAnswer(c, d).Shown?
    ensures DetailAnswer(more, d).Shown?
    ensures var before, after := DetailAnswer(c, d).dashboard.widgets, DetailAnswer(more, d).dashboard.widgets;
      (exists w :: w in before && w.name == name) ==> exists w :: w in after && w.name == name
  {
    FilteredNames(c, d.widgets, name);
    FilteredNames(more, d.widgets, name);
    if w :| w in d.widgets && w.name == name && MaySee(c, w) {
      AllowedMore(c, more, w.permissions, w.mode);
      assert MaySee(more, w);
    }
  }

  lemma AllowedMore(c: Caller, more: Caller, needed: seq<string>, mode: string)
    requires c.granted <= more.granted && Allowed(c, needed, mode)
    ensures Allowed(more, needed, mode)
  {
  }

  lemma {:induction false} FindErrors(c: Caller, widgets: seq<Widget>, name: string)
    ensures var r := FindWidget(c, widgets, name); r.Err? ==> r.error.WidgetNotFound? || r.error.Unauthorized?
    decreases |widgets|
  {
    if widgets != [] {
      FindErrors(c, widgets[1..], name);
    }
  }

  // ---------------------------------------------------------------------------------------------
  // The handlers
  // ---------------------------------------------------------------------------------------------

  /** `_filter_widget_actions`: assigns the four filtered slots into the widget it is given. */
  method FilterWidgetActions(c: Caller, w: WidgetObject)
    modifies w
    ensures w.value == FilterWidget(c, old(w.value))
  {
    w.value := w.value.(actions := Items(FilterActions(c, ListOf(w.value.actions))));
    w.value := w.value.(rowActions := Items(FilterActions(c, ListOf(w.value.rowActions))));
    w.value := w.value.(primary := FilterSingle(c, w.value.primary));
    w.value := w.value.(item := FilterSingle(c, w.value.item));
  }

  /** `filter_authorized_widgets`: keeps, and changes in place, the widgets the caller may see. */
  method FilterAuthorizedWidgets(c: Caller, widgets: seq<WidgetObject>) returns (kept: seq<WidgetObject>)
    requires Distinct(widgets)
    modifies widgets
    ensures Snapshot(kept) == FilterWidgets(c, old(Snapshot(widgets)))
    ensures forall w :: w in kept ==> w in widgets
  {
    ghost var before := Snapshot(widgets);
    kept := [];
    var k := 0;
    while k < |widgets|
      invariant 0 <= k <= |widgets|
      invariant forall w :: w in kept ==> w in widgets[..k]
      invariant forall i :: k <= i < |widgets| ==> widgets[i].value == before[i]
      invariant Snapshot(kept) == FilterWidgets(c, before[..k])
    {
      assert before[..k + 1] == before[..k] + [before[k]];
      FilterWidgetsAppend(c, before[..k], before[k]);
      if MaySee(c, widgets[k].value) {
        ghost var done := Snapshot(kept);
        assert widgets[k] !in widgets[..k];
        FilterWidgetActions(c, widgets[k]);
        assert Snapshot(kept) == done;
        kept := kept + [widgets[k]];
        assert Snapshot(kept) == done + [FilterWidget(c, before[k])];
      }
      k := k + 1;
    }
    assert before[..k] == before;
  }

  /** The widget at `i` has the name, and none before it. */
  ghost predicate FirstNamed(widgets: seq<Widget>, name: string, i: nat) {
    i < |widgets| && widgets[i].name == name && forall j :: 0 <= j < i ==> widgets[j].name != name
  }

  /** `get_widget_or_raise`. */
  method GetWidgetOrRaise(c: Caller, widgets: seq<WidgetObject>, name: string)
    returns (r: Result<WidgetObject, EngineError>)
    ensures r.Ok? ==> r.value in widgets && FindWidget(c, Snapshot(widgets), name) == Ok(r.value.value)
    ensures r.Err? ==> FindWidget(c, Snapshot(widgets), name) == Err(r.error)
    ensures r == Err(WidgetNotFound) <==> forall i :: 0 <= i < |widgets| ==> widgets[i].value.name != name
    ensures r != Err(WidgetNotFound) ==>
              exists i: nat :: FirstNamed(Snapshot(widgets), name, i)
                          && var w := widgets[i].value;
                             r == if w.visible && Permitted(c, w.permissions, w.mode) then Ok(widgets[i])
                                  else Err(Unauthorized)
  {
    ghost var all := Snapshot(widgets);
    var k := 0;
    while k < |widgets| && widgets[k].value.name != name
      invariant 0 <= k <= |widgets|
      invariant FindWidget(c, all, name) == FindWidget(c, all[k..], name)
      invariant forall j :: 0 <= j < k ==> widgets[j].value.name != name
    {
      assert all[k..][0] == all[k] && all[k..][1..] == all[k + 1..];
      k := k + 1;
    }
    if k == |widgets| {
      return Err(WidgetNotFound);
    }
    assert all[k..][0] == all[k];
    AllowedExactly(c, widgets[k].value.permissions, widgets[k].value.mode);
    assert FirstNamed(all, name, k);
    r := if MaySee(c, widgets[k].value) then Ok(widgets[k]) else Err(Unauthorized);
  }

  /** `dashboard["widgets"] = filter_authorized_widgets(request, dashboard)`. */
  method KeepAuthorized(c: Caller, d: DashboardObject) returns (shown: Dashboard)
    requires Distinct(d.widgets)
    modifies d, d.widgets
    ensures shown == old(d.Value()).(widgets := FilterWidgets(c, old(d.Value()).widgets))
    ensures forall w :: w in d.widgets ==> w in old(d.widgets)
  {
    var kept := FilterAuthorizedWidgets(c, d.widgets);
    d.widgets := kept;
    shown := d.Value();
  }

  /** The dashboard with exactly its visible and permitted widgets, in order, each as the caller may see it. */
  ghost predicate ShowsPermitted(c: Caller, d: Dashboard, shown: Dashboard) {
    && shown.head == d.head && |shown.widgets| == WidgetRank(c, d.widgets, |d.widgets|)
    && forall i :: 0 <= i < |d.widgets| ==> ShownAt(c, d.widgets, shown.widgets, i)
  }

  lemma ShownIsPermitted(c: Caller, d: Dashboard)
    ensures ShowsPermitted(c, d, d.(widgets := FilterWidgets(c, d.widgets)))
  {
    PermittedIsShown(c, d.widgets, |d.widgets|);
    assert d.widgets[..|d.widgets|] == d.widgets;
  }

  /** `DashboardDetailAPIView.get`: assigns the filtered widgets into its copy and returns it. */
  method Detail(registry: DashboardRegistry, c: Caller, name: string) returns (r: Response, copy: DashboardObject?)
    requires registry.Valid()
    ensures name in registry.Contents() ==> r == DetailAnswer(c, registry.Contents()[name])
    ensures name !in registry.Contents() ==> r == Refused(DashboardNotFound)
    ensures name in registry.Contents() ==>
              var h := registry.Contents()[name].head;
              var active := (if h.app == None || h.app == Some("") then h.name else h.app.value) in c.modules;
              var granted := !h.permission.Codename? || h.permission.name == "" || h.permission.name in c.granted;
              && (r == Refused(ModuleNotActive) <==> !active)
              && (r == Refused(Unauthorized) <==> active && !granted)
              && (r.Raised? <==> active && granted && h.widgetsEntry != WidgetList)
              && (r.Shown? <==> active && granted && h.widgetsEntry == WidgetList)
    ensures r.Shown? ==> name in registry.Contents() && ShowsPermitted(c, registry.Contents()[name], r.dashboard)
    ensures copy != null ==> fresh(copy) && fresh(copy.widgets)
  {
    copy := registry.Get(name);
    if copy == null {
      return Refused(DashboardNotFound), copy;
    }
    GateExactly(c, copy.head);
    ShownIsPermitted(c, copy.Value());
    var gate := Gate(c, copy.head);
    if gate.Err? {
      return Refused(gate.error), copy;
    }
    if copy.head.widgetsEntry != WidgetList {
      return Raised, copy;
    }
    ghost var registered, parts := registry.Contents(), copy.widgets;
    var shown := KeepAuthorized(c, copy);
    assert registry.Contents() == registered;
    assert forall i :: 0 <= i < |copy.widgets| ==> copy.widgets[i] in parts;
    r := Shown(shown);
  }

  /**
    What the answer says about access: the module, then the dashboard's permission, then the entry, then whether
    there is such a widget, then whether it is visible and permitted; only past all that does it say more.
   */
  ghost predicate Guarded(c: Caller, providers: map<string, Provider>, d: Dashboard, widget: string, r: Response) {
    var h := d.head;
    var active := (if h.app == None || h.app == Some("") then h.name else h.app.value) in c.modules;
    var granted := !h.permission.Codename? || h.permission.name == "" || h.permission.name in c.granted;
    if !active then r == Refused(ModuleNotActive)
    else if !granted then r == Refused(Unauthorized)
    else if h.widgetsEntry != WidgetList then r == Raised
    else if forall w :: w in d.widgets ==> w.name != widget then r == Refused(WidgetNotFound)
    else
      exists i: nat :: FirstNamed(d.widgets, widget, i)
                  && var w := d.widgets[i];
                     if w.visible && Permitted(c, w.permissions, w.mode)
                     then || (r.Data? && r.kind == w.kind && w.provider in providers)
                          || (r.Refused? && r.error.BadFilters?)
                          || (r == Refused(UnknownProvider) && w.provider !in providers)
                     else r == Refused(Unauthorized)
  }

  lemma {:induction false} FindsFirst(c: Caller, widgets: seq<Widget>, name: string) returns (i: nat)
    ensures i <= |widgets| && forall j :: 0 <= j < i ==> widgets[j].name != name
    ensures i == |widgets| ==> FindWidget(c, widgets, name) == Err(WidgetNotFound)
    ensures i < |widgets| ==>
              && FirstNamed(widgets, name, i)
              && FindWidget(c, widgets, name) ==
                   if widgets[i].visible && Permitted(c, widgets[i].permissions, widgets[i].mode) then Ok(widgets[i])
                   else Err(Unauthorized)
    decreases |widgets|
  {
    i := 0;
    if widgets != [] {
      if widgets[0].name == name {
        AllowedExactly(c, widgets[0].permissions, widgets[0].mode);
      } else {
        var k := FindsFirst(c, widgets[1..], name);
        i := k + 1;
        assert forall j :: 0 < j < |widgets| ==> widgets[j] == widgets[1..][j - 1];
      }
    }
  }

  lemma GuardedAnswer(cv: Converters, providers: map<string, Provider>, c: Caller, d: Dashboard, widget: string,
                      q: Query)
    ensures Guarded(c, providers, d, widget, WidgetAnswer(cv, providers, c, d, widget, q))
  {
    GateExactly(c, d.head);
    var i := FindsFirst(c, d.widgets, widget);
    if i < |d.widgets| {
      assert d.widgets[i] in d.widgets;
      assert FirstNamed(d.widgets, widget, i);
    }
  }

  /** What `DashboardWidgetDataAPIView.get` does once it has its copy of the dashboard. */
  method WidgetDataOf(copy: DashboardObject, cv: Converters, providers: map<string, Provider>, c: Caller,
                      widget: string, q: Query)
    returns (r: Response)
    ensures r == WidgetAnswer(cv, providers, c, copy.Value(), widget, q)
  {
    var gate := Gate(c, copy.head);
    if gate.Err? {
      return Refused(gate.error);
    }
    if copy.head.widgetsEntry != WidgetList {
      return Raised;
    }
    var found := GetWidgetOrRaise(c, copy.widgets, widget);
    if found.Err? {
      return Refused(found.error);
    }
    var w := found.value.value;
    var defs := ResolveWidgetFilterDefs(copy.head, w);
    var filters := ValidateAndParse(cv, defs, q);
    if filters.Err? {
      ErrorsCover(filters.error, cv, defs, q);
      return Refused(BadFilters(filters.error.Keys));
    }
    if w.provider !in providers {
      return Refused(UnknownProvider);
    }
    r := Data(w.kind, providers[w.provider](copy.Value(), w, filters.value));
  }

  /** `DashboardWidgetDataAPIView.get`. */
  method WidgetData(registry: DashboardRegistry, cv: Converters, providers: map<string, Provider>, c: Caller,
                    name: string, widget: string, q: Query)
    returns (r: Response, copy: DashboardObject?)
    requires registry.Valid()
    ensures name in registry.Contents() ==>
              && r == WidgetAnswer(cv, providers, c, registry.Contents()[name], widget, q)
              && Guarded(c, providers, registry.Contents()[name], widget, r)
    ensures name !in registry.Contents() ==> r == Refused(DashboardNotFound)
    ensures copy != null ==> fresh(copy) && fresh(copy.widgets)
  {
    copy := registry.Get(name);
    if copy == null {
      return Refused(DashboardNotFound), copy;
    }
    GuardedAnswer(cv, providers, c, copy.Value(), widget, q);
    r := WidgetDataOf(copy, cv, providers, c, widget, q);
  }

  /** Anything at all may be assigned into dicts that were handed out, at any later time. */
  method Scribble(dashboards: set<DashboardObject>, widgets: set<WidgetObject>)
    modifies dashboards, widgets
  {
    var ds, ws := dashboards, widgets;
    while ds != {}
      invariant ds <= dashboards
      decreases |ds|
    {
      var d :| d in ds;
      d.head, d.widgets := *, *;
      ds := ds - {d};
    }
    while ws != {}
      invariant ws <= widgets
      decreases |ws|
    {
      var w :| w in ws;
      w.value := *;
      ws := ws - {w};
    }
  }

  /** Routes a request, and says which dicts its handler had in its hands. */
  method Respond(registry: DashboardRegistry, cv: Converters, providers: map<string, Provider>, r: Request)
    returns (answer: Response, dashboards: set<DashboardObject>, widgets: set<WidgetObject>)
    requires registry.Valid()
    ensures answer == Answer(registry.Contents(), cv, providers, r)
    ensures fresh(dashboards) && fresh(widgets)
  {
    var copy: DashboardObject?;
    match r {
      case DetailRequest(c, name) => answer, copy := Detail(registry, c, name);
      case WidgetRequest(c, name, widget, q) => answer, copy := WidgetData(registry, cv, providers, c, name, widget, q);
    }
    dashboards, widgets := {}, {};
    if copy != null {
      dashboards, widgets := {copy}, set w | w in copy.widgets;
    }
  }

  /** What an answer says about access, for either kind of request. */
  ghost predicate Proper(contents: map<string, Dashboard>, providers: map<string, Provider>, r: Request,
                         answer: Response)
  {
    if r.name !in contents then answer == Refused(DashboardNotFound)
    else match r
      case WidgetRequest(c, name, widget, _) => Guarded(c, providers, contents[name], widget, answer)
      case DetailRequest(c, name) =>
        var h := contents[name].head;
        if ModuleOf(h) !in c.modules then answer == Refused(ModuleNotActive)
        else if h.permission.Codename? && h.permission.name != "" && h.permission.name !in c.granted then
          answer == Refused(Unauthorized)
        else if h.widgetsEntry != WidgetList then answer == Raised
        else answer.Shown? && ShowsPermitted(c, contents[name], answer.dashboard)
  }

  lemma AnswersAreProper(contents: map<string, Dashboard>, cv: Converters, providers: map<string, Provider>,
                         requests: seq<Request>, answers: seq<Response>)
    requires |answers| == |requests|
    requires forall i :: 0 <= i < |requests| ==> answers[i] == Answer(contents, cv, providers, requests[i])
    ensures forall i :: 0 <= i < |requests| ==> Proper(contents, providers, requests[i], answers[i])
  {
    forall i | 0 <= i < |requests|
      ensures Proper(contents, providers, requests[i], answers[i])
    {
      AnswerIsProper(contents, cv, providers, requests[i]);
    }
  }

  lemma AnswerIsProper(contents: map<string, Dashboard>, cv: Converters, providers: map<string, Provider>, r: Request)
    ensures Proper(contents, providers, r, Answer(contents, cv, providers, r))
  {
    if r.name in contents {
      match r
      case DetailRequest(c, name) =>
        GateExactly(c, contents[name].head);
        ShownIsPermitted(c, contents[name]);
      case WidgetRequest(c, name, widget, q) => GuardedAnswer(cv, providers, c, contents[name], widget, q);
    }
  }

  /**
    A whole sequence of requests. Between any two of them, every dict ever handed to a handler or a provider
    may have been overwritten; still each answer is the one the registered configuration prescribes, and
    what is registered does not change.
   */
  method Serve(registry: DashboardRegistry, cv: Converters, providers: map<string, Provider>, requests: seq<Request>)
    returns (answers: seq<Response>)
    requires registry.Valid()
    ensures registry.Valid() && registry.Contents() == old(registry.Contents())
    ensures |answers| == |requests|
    ensures forall i :: 0 <= i < |requests| ==> answers[i] == Answer(registry.Contents(), cv, providers, requests[i])
    ensures forall i :: 0 <= i < |requests| ==> Proper(registry.Contents(), providers, requests[i], answers[i])
  {
    answers := [];
    var dashboards: set<DashboardObject>, widgets: set<WidgetObject> := {}, {};
    var i := 0;
    while i < |requests|
      invariant 0 <= i == |answers| <= |requests|
      invariant fresh(dashboards) && fresh(widgets)
      invariant registry.Valid() && registry.Contents() == old(registry.Contents())
      invariant forall k :: 0 <= k < i ==> answers[k] == Answer(old(registry.Contents()), cv, providers, requests[k])
    {
      var answer, ds, ws := ServeOne(registry, cv, providers, requests[i], dashboards, widgets);
      answers := answers + [answer];
      dashboards, widgets := dashboards + ds, widgets + ws;
      i := i + 1;
    }
    AnswersAreProper(registry.Contents(), cv, providers, requests, answers);
  }

  /** One request, after everything handed out before has been overwritten. */
  method ServeOne(registry: DashboardRegistry, cv: Converters, providers: map<string, Provider>, r: Request,
                  dashboards: set<DashboardObject>, widgets: set<WidgetObject>)
    returns (answer: Response, ds: set<DashboardObject>, ws: set<WidgetObject>)
    requires registry.Valid()
    requires (forall d: DashboardObject :: d in dashboards ==> d !in registry.repr)
             && (forall w: WidgetObject :: w in widgets ==> w !in registry.repr)
    modifies dashboards, widgets
    ensures registry.Valid() && registry.Contents() == old(registry.Contents())
    ensures answer == Answer(old(registry.Contents()), cv, providers, r)
    ensures fresh(ds) && fresh(ws)
  {
    ghost var contents := registry.Contents();
    Scribble(dashboards, widgets);
    assert registry.Valid() && registry.Contents() == contents;
    answer, ds, ws := Respond(registry, cv, providers, r);
    assert registry.Valid() && registry.Contents() == contents;
  }
}
