/** `DashboardValidator`: the loops that decide whether a declared configuration is accepted. */
module Validator {
  import opened Wrappers
  import opened Layout
  import opened Dashboards

  datatype ConfigError =
    | InvalidDashboardType
    | UnsupportedSchemaVersion
    | InvalidConfig
    | DuplicateFilter(name: string)
    | UnsupportedFilterType(name: string)
    | DuplicateWidget(name: string)
    | UnsupportedActionType(name: string)
    | DuplicateAction(name: string)
    | BadLayout(error: LayoutError)

  const FILTER_TYPES := {
    "text", "search", "select", "multi_select", "autocomplete", "boolean", "date", "date_range",
    "month", "year", "number", "number_range", "entity", "branch", "status"}
  const ACTION_TYPES := {"route", "refresh", "fullscreen", "dialog", "request"}
  const REQUEST_METHODS := {"POST", "PUT", "PATCH", "DELETE"}
  const PERMISSION_MODES := {"all", "any"}

  type Verdict = Result<(), ConfigError>

  /** Some name of the list is used twice. */
  predicate Repeats(names: seq<string>, name: string) {
    exists i, j :: 0 <= i < j < |names| && names[i] == names[j] == name
  }

  /** `seen` holds the first `k` names, no two of which are the same. */
  ghost predicate Seen(names: seq<string>, k: nat, seen: set<string>) {
    k <= |names| && DistinctNames(names[..k]) && forall n :: n in seen <==> n in names[..k]
  }

  lemma SeeNext(names: seq<string>, k: nat, seen: set<string>)
    requires Seen(names, k, seen) && k < |names|
    ensures names[k] in seen ==> Repeats(names, names[k]) && !DistinctNames(names)
    ensures names[k] !in seen ==> Seen(names, k + 1, seen + {names[k]})
  {
    assert names[..k + 1] == names[..k] + [names[k]];
    if names[k] in seen {
      var i :| 0 <= i < k && names[..k][i] == names[k];
      assert names[i] == names[k];
    }
  }

  ghost predicate Collects(names: seq<string>, s: set<string>) {
    forall n :: n in s <==> n in names
  }

  lemma SeenAll(names: seq<string>, seen: set<string>)
    requires Seen(names, |names|, seen)
    ensures DistinctNames(names) && Collects(names, seen)
  {
    assert names[..|names|] == names;
  }

  lemma CollectedOnce(names: seq<string>, s: set<string>, t: set<string>)
    requires Collects(names, s) && Collects(names, t)
    ensures s == t
  {
  }

  lemma FilterFails(filters: seq<FilterDef>, k: nat)
    requires k < |filters| && !ValidFilter(filters[k])
    ensures !ValidFilters(filters)
  {
    assert filters[k] in filters;
  }

  lemma FiltersPass(filters: seq<FilterDef>, seen: set<string>)
    requires Seen(FilterNames(filters), |filters|, seen) && forall i :: 0 <= i < |filters| ==> ValidFilter(filters[i])
    ensures ValidFilters(filters) && seen == Globals(filters)
  {
    SeenAll(FilterNames(filters), seen);
    ListedNames(filters);
    CollectedOnce(FilterNames(filters), seen, Globals(filters));
  }

  ghost predicate WidgetsPass(widgets: seq<Widget>, globals: set<string>, k: nat) {
    k <= |widgets| && forall i :: 0 <= i < k ==> ValidWidget(widgets[i], globals)
  }

  lemma WidgetPasses(widgets: seq<Widget>, globals: set<string>, k: nat)
    requires WidgetsPass(widgets, globals, k) && k < |widgets| && ValidWidget(widgets[k], globals)
    ensures WidgetsPass(widgets, globals, k + 1)
  {
  }

  lemma WidgetFails(widgets: seq<Widget>, globals: set<string>, k: nat)
    requires k < |widgets| && !ValidWidget(widgets[k], globals)
    ensures !ValidWidgets(widgets, globals)
  {
    assert widgets[k] in widgets;
  }

  lemma ValidFiltersExactly(filters: seq<FilterDef>)
    ensures ValidFilters(filters) <==>
              && (forall i, j :: 0 <= i < j < |filters| ==> filters[i].name != filters[j].name)
              && (forall i :: 0 <= i < |filters| ==>
                    && filters[i].isDict && filters[i].name != "" && filters[i].tooltipOk
                    && filters[i].kind in {
                         "text", "search", "select", "multi_select", "autocomplete", "boolean", "date", "date_range",
                         "month", "year", "number", "number_range", "entity", "branch", "status"})
  {
    var names := FilterNames(filters);
    assert DistinctNames(names) <==> forall i, j :: 0 <= i < j < |filters| ==> filters[i].name != filters[j].name by {
      assert forall i :: 0 <= i < |filters| ==> names[i] == filters[i].name;
    }
    assert (forall f :: f in filters ==> ValidFilter(f)) <==>
        (forall i :: 0 <= i < |filters| ==> ValidFilter(filters[i]));
    assert FILTER_KINDS == {
        "text", "search", "select", "multi_select", "autocomplete", "boolean", "date", "date_range",
        "month", "year", "number", "number_range", "entity", "branch", "status"};
  }

  method ValidateFilters(filters: seq<FilterDef>) returns (r: Result<set<string>, ConfigError>)
    ensures r.Ok? <==> ValidFilters(filters)
    ensures r.Ok? ==> r.value == Globals(filters)
    ensures r.Ok? <==>
              && (forall i, j :: 0 <= i < j < |filters| ==> filters[i].name != filters[j].name)
              && (forall i :: 0 <= i < |filters| ==>
                    && filters[i].isDict && filters[i].name != "" && filters[i].tooltipOk
                    && filters[i].kind in {
                         "text", "search", "select", "multi_select", "autocomplete", "boolean", "date", "date_range",
                         "month", "year", "number", "number_range", "entity", "branch", "status"})
    ensures r.Err? ==> r.error.InvalidConfig? || r.error.UnsupportedFilterType? || r.error.DuplicateFilter?
    ensures r.Err? && r.error.DuplicateFilter? ==> Repeats(FilterNames(filters), r.error.name)
  {
    ValidFiltersExactly(filters);
    ghost var names := FilterNames(filters);
    var seen := {};
    var k := 0;
    while k < |filters|
      invariant Seen(names, k, seen)
      invariant forall i :: 0 <= i < k ==> ValidFilter(filters[i])
    {
      var f := filters[k];
      SeeNext(names, k, seen);
      if !f.isDict || f.name == "" {
        FilterFails(filters, k);
        return Err(InvalidConfig);
      }
      if f.name in seen {
        return Err(DuplicateFilter(f.name));
      }
      seen := seen + {f.name};
      if f.kind !in FILTER_TYPES {
        FilterFails(filters, k);
        return Err(UnsupportedFilterType(f.name));
      }
      if !f.tooltipOk {
        FilterFails(filters, k);
        return Err(InvalidConfig);
      }
      k := k + 1;
    }
    FiltersPass(filters, seen);
    r := Ok(seen);
  }

  /** A nested second action is validated by the same method. */
  method ValidateAction(a: Action) returns (r: Verdict)
    ensures r.Ok? <==> ValidAction(a)
    ensures r.Ok? ==> a.kind in {"route", "refresh", "fullscreen", "dialog", "request"} && a.mode in {"all", "any"}
    ensures r.Ok? && a.kind == "request" ==> a.request.value.methodName in {"POST", "PUT", "PATCH", "DELETE"}
    ensures r.Err? ==> r.error.InvalidConfig? || r.error.UnsupportedActionType?
    decreases a
  {
    if !a.isDict || a.name == "" || a.kind == "" {
      return Err(InvalidConfig);
    }
    if a.kind !in ACTION_TYPES {
      return Err(UnsupportedActionType(a.name));
    }
    if a.kind == "route" && !a.routeIsDict {
      return Err(InvalidConfig);
    }
    if a.kind == "dialog" && a.dialog == "" {
      return Err(InvalidConfig);
    }
    if a.kind == "request" {
      if a.request.None? || a.request.value.methodName !in REQUEST_METHODS || a.request.value.endpoint == "" {
        return Err(InvalidConfig);
      }
    }
    if !a.whenOk || a.mode !in PERMISSION_MODES || !a.tooltipOk {
      return Err(InvalidConfig);
    }
    if a.secondary.Secondary? {
      if a.secondary.action.secondary != NoSecondary {
        return Err(InvalidConfig);
      }
      r := ValidateAction(a.secondary.action);
      return;
    }
    r := Ok(());
  }

  method ValidateActionsList(actions: Listing<Action>) returns (r: Verdict)
    ensures r.Ok? <==> !actions.NotAList? && ValidActions(ListOf(actions))
    ensures r.Err? && r.error.DuplicateAction? ==> Repeats(ActionNames(ListOf(actions)), r.error.name)
    ensures r.Err? ==> r.error.InvalidConfig? || r.error.UnsupportedActionType? || r.error.DuplicateAction?
  {
    if actions.Absent? {
      return Ok(());
    }
    if actions.NotAList? {
      return Err(InvalidConfig);
    }
    var list := actions.items;
    ghost var names := ActionNames(list);
    var seen := {};
    var k := 0;
    while k < |list|
      invariant Seen(names, k, seen)
      invariant forall i :: 0 <= i < k ==> ValidAction(list[i])
    {
      r := ValidateAction(list[k]);
      if r.Err? {
        return;
      }
      SeeNext(names, k, seen);
      if list[k].name in seen {
        return Err(DuplicateAction(list[k].name));
      }
      seen := seen + {list[k].name};
      k := k + 1;
    }
    SeenAll(names, seen);
    r := Ok(());
  }

  method ValidateSingle(action: Option<Action>) returns (r: Verdict)
    ensures r.Ok? <==> (action.Some? ==> ValidAction(action.value))
    ensures r.Err? ==> r.error.InvalidConfig? || r.error.UnsupportedActionType?
  {
    r := Ok(());
    if action.Some? {
      r := ValidateAction(action.value);
    }
  }

  /** The `accepts_filters` loop. */
  method ValidateAccepts(accepts: seq<string>, globals: set<string>, own: set<string>) returns (r: Verdict)
    ensures r.Ok? <==> forall n :: n in accepts ==> n in globals || n in own
    ensures r.Err? ==> r.error.InvalidConfig?
  {
    var k := 0;
    while k < |accepts|
      invariant 0 <= k <= |accepts|
      invariant forall i :: 0 <= i < k ==> accepts[i] in globals || accepts[i] in own
    {
      if accepts[k] !in globals && accepts[k] !in own {
        return Err(InvalidConfig);
      }
      k := k + 1;
    }
    r := Ok(());
  }

  /** What follows the name check in the widget loop: everything else about the one widget. */
  method ValidateWidget(w: Widget, globals: set<string>) returns (r: Verdict)
    requires w.isDict && w.name != "" && w.kind != "" && w.provider != ""
    ensures r.Ok? <==> ValidWidget(w, globals)
    ensures r.Err? ==> !r.error.DuplicateWidget? && !r.error.BadLayout?
  {
    if w.mode !in PERMISSION_MODES {
      return Err(InvalidConfig);
    }
    if w.filters.NotAList? {
      return Err(InvalidConfig);
    }
    var own := ValidateFilters(ListOf(w.filters));
    if own.Err? {
      return Err(own.error);
    }
    ListedNames(ListOf(w.filters));
    NoCollision(ListOf(w.filters), globals);
    if own.value * globals != {} {
      var name :| name in own.value * globals;
      return Err(DuplicateFilter(name));
    }
    r := ValidateAccepts(w.accepts, globals, own.value);
    if r.Err? {
      return;
    }
    if !w.tooltipOk {
      return Err(InvalidConfig);
    }
    r := ValidateActionsList(w.actions);
    if r.Err? {
      return;
    }
    r := ValidateActionsList(w.rowActions);
    if r.Err? {
      return;
    }
    r := ValidateSingle(w.primary);
    if r.Err? {
      return;
    }
    r := ValidateSingle(w.item);
  }

  lemma NoCollision(filters: seq<FilterDef>, globals: set<string>)
    ensures Globals(filters) * globals == {} <==> forall f :: f in filters ==> f.name !in globals
  {
    if f :| f in filters && f.name in globals {
      assert f.name in Globals(filters) * globals;
    }
  }

  method ValidateWidgets(widgets: seq<Widget>, globals: set<string>) returns (r: Verdict)
    ensures r.Ok? <==> ValidWidgets(widgets, globals)
    ensures r.Err? ==> !r.error.BadLayout?
    ensures r.Err? && r.error.DuplicateWidget? ==> Repeats(WidgetNames(widgets), r.error.name)
  {
    ghost var names := WidgetNames(widgets);
    var seen := {};
    var k := 0;
    while k < |widgets|
      invariant Seen(names, k, seen)
      invariant WidgetsPass(widgets, globals, k)
    {
      var w := widgets[k];
      if !w.isDict || w.name == "" || w.kind == "" || w.provider == "" {
        WidgetFails(widgets, globals, k);
        return Err(InvalidConfig);
      }
      SeeNext(names, k, seen);
      if w.name in seen {
        return Err(DuplicateWidget(w.name));
      }
      seen := seen + {w.name};
      r := ValidateWidget(w, globals);
      if r.Err? {
        WidgetFails(widgets, globals, k);
        return;
      }
      WidgetPasses(widgets, globals, k);
      k := k + 1;
    }
    SeenAll(names, seen);
    r := Ok(());
  }

  /**
    Accepts exactly the valid configurations. A duplicate it reports really occurs twice, and a layout it
    reports has malformed cols or a row that is neither empty nor full.
   */
  method Validate(d: Dashboard) returns (r: Verdict)
    ensures r.Ok? <==> ValidDashboard(d)
    ensures r.Err? && r.error.DuplicateWidget? ==> Repeats(WidgetNames(WidgetsOf(d)), r.error.name)
    ensures r.Err? && r.error.BadLayout? ==>
              ValidWidgets(WidgetsOf(d), Globals(ListOf(d.head.filters))) && !LayoutOk(PlacedWidgets(WidgetsOf(d)))
  {
    if !d.head.isDict {
      return Err(InvalidDashboardType);
    }
    if d.head.schemaVersion != "1.0" {
      return Err(UnsupportedSchemaVersion);
    }
    if d.head.name == "" || d.head.title == "" {
      return Err(InvalidConfig);
    }
    if d.head.filters.NotAList? {
      return Err(InvalidConfig);
    }
    var names := ValidateFilters(ListOf(d.head.filters));
    if names.Err? {
      return Err(names.error);
    }
    if d.head.widgetsEntry == WrongType {
      return Err(InvalidConfig);
    }
    r := ValidateWidgets(WidgetsOf(d), names.value);
    if r.Err? {
      return;
    }
    var layout := ValidateLayout(PlacedWidgets(WidgetsOf(d)));
    if layout.Err? {
      return Err(BadLayout(layout.error));
    }
    if d.head.permission == NotText || !d.head.tooltipOk {
      return Err(InvalidConfig);
    }
    r := Ok(());
  }
}
