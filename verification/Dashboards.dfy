/** Dashboard configurations, and what each request may see of them. */
module Dashboards {
  import opened Wrappers
  import opened Layout

  /** `dblclick_action`: the key may be missing, null, or hold a second action. */
  datatype Secondary = NoSecondary | NullSecondary | Secondary(action: Action)

  /** An entry that should hold a list: missing (or empty in another way), of another type, or a list. */
  datatype Listing<T> = Absent | NotAList | Items(items: seq<T>)

  datatype RequestDef = RequestDef(methodName: string, endpoint: string)

  /**
    `methodName` is the upper-cased text; `whenOk` and `tooltipOk` say that those entries, if present, have the
    right types.
   */
  datatype Action = Action(
    isDict: bool,
    name: string,
    kind: string,
    routeIsDict: bool,
    dialog: string,
    request: Option<RequestDef>,
    permissions: seq<string>,
    mode: string,
    whenOk: bool,
    tooltipOk: bool,
    secondary: Secondary)

  datatype FilterDef = FilterDef(isDict: bool, name: string, kind: string, required: bool, choices: set<string>,
      tooltipOk: bool)

  datatype Widget = Widget(
    isDict: bool,
    name: string,
    kind: string,
    provider: string,
    visible: bool,
    permissions: seq<string>,
    mode: string,
    filters: Listing<FilterDef>,
    accepts: seq<string>,
    tooltipOk: bool,
    actions: Listing<Action>,
    rowActions: Listing<Action>,
    primary: Option<Action>,
    item: Option<Action>,
    order: int,
    cols: Cols)

  /**
    The "widgets" entry: a list, with a missing entry or another empty container counting as an empty one; null or
    another falsy scalar; or anything else.
   */
  datatype WidgetsEntry = WidgetList | NullEntry | WrongType

  datatype Permission = NoPermission | Codename(name: string) | NotText

  /** Everything of a dashboard except its widgets. */
  datatype Head = Head(
    isDict: bool,
    schemaVersion: string,
    name: string,
    title: string,
    app: Option<string>,     // the "module" entry
    filters: Listing<FilterDef>,
    widgetsEntry: WidgetsEntry,
    permission: Permission,
    tooltipOk: bool,
    visible: bool,
    order: int)

  datatype Dashboard = Dashboard(head: Head, widgets: seq<Widget>)

  // ---------------------------------------------------------------------------------------------
  // Validity
  // ---------------------------------------------------------------------------------------------

  const FILTER_KINDS := {
    "text", "search", "select", "multi_select", "autocomplete", "boolean", "date", "date_range",
    "month", "year", "number", "number_range", "entity", "branch", "status"}
  const ACTION_KINDS := {"route", "refresh", "fullscreen", "dialog", "request"}
  const METHODS := {"POST", "PUT", "PATCH", "DELETE"}

  predicate ActionBodyOk(a: Action) {
    && a.isDict && a.name != "" && a.kind in ACTION_KINDS
    && (a.kind == "route" ==> a.routeIsDict)
    && (a.kind == "dialog" ==> a.dialog != "")
    && (a.kind == "request" ==>
        a.request.Some? && a.request.value.methodName in METHODS && a.request.value.endpoint != "")
    && a.whenOk && a.mode in {"all", "any"} && a.tooltipOk
  }

  /** A second action is a full action that carries no `dblclick_action` key of its own. */
  predicate ValidAction(a: Action) {
    && ActionBodyOk(a)
    && (a.secondary.Secondary? ==> a.secondary.action.secondary == NoSecondary && ValidAction(a.secondary.action))
  }

  predicate DistinctNames(names: seq<string>) {
    forall i, j :: 0 <= i < j < |names| ==> names[i] != names[j]
  }

  function ActionNames(actions: seq<Action>): seq<string> {
    seq(|actions|, i requires 0 <= i < |actions| => actions[i].name)
  }

  function FilterNames(filters: seq<FilterDef>): seq<string> {
    seq(|filters|, i requires 0 <= i < |filters| => filters[i].name)
  }

  function WidgetNames(widgets: seq<Widget>): seq<string> {
    seq(|widgets|, i requires 0 <= i < |widgets| => widgets[i].name)
  }

  function ListOf<T>(entry: Listing<T>): seq<T> {
    if entry.Items? then entry.items else []
  }

  predicate ValidActions(actions: seq<Action>) {
    DistinctNames(ActionNames(actions)) && forall a :: a in actions ==> ValidAction(a)
  }

  predicate ValidFilter(f: FilterDef) {
    f.isDict && f.name != "" && f.kind in FILTER_KINDS && f.tooltipOk
  }

  predicate ValidFilters(filters: seq<FilterDef>) {
    DistinctNames(FilterNames(filters)) && forall f :: f in filters ==> ValidFilter(f)
  }

  /** One widget on its own; `globals` are the names of the dashboard's filters. */
  predicate ValidWidget(w: Widget, globals: set<string>) {
    && w.isDict && w.name != "" && w.kind != "" && w.provider != "" && w.mode in {"all", "any"} && w.tooltipOk
    && !w.filters.NotAList? && ValidFilters(ListOf(w.filters))
    && (forall f :: f in ListOf(w.filters) ==> f.name !in globals)
    && (forall n :: n in w.accepts ==> n in globals || n in FilterNames(ListOf(w.filters)))
    && !w.actions.NotAList? && ValidActions(ListOf(w.actions))
    && !w.rowActions.NotAList? && ValidActions(ListOf(w.rowActions))
    && (w.primary.Some? ==> ValidAction(w.primary.value))
    && (w.item.Some? ==> ValidAction(w.item.value))
  }

  predicate ValidWidgets(widgets: seq<Widget>, globals: set<string>) {
    DistinctNames(WidgetNames(widgets)) && forall w :: w in widgets ==> ValidWidget(w, globals)
  }

  function Globals(filters: seq<FilterDef>): set<string> {
    set f | f in filters :: f.name
  }

  lemma ListedNames(filters: seq<FilterDef>)
    ensures forall n :: n in Globals(filters) <==> n in FilterNames(filters)
    ensures forall f :: f in filters ==> f.name in FilterNames(filters)
  {
    forall n | n in Globals(filters)
      ensures n in FilterNames(filters)
    {
      var f :| f in filters && f.name == n;
      var i :| 0 <= i < |filters| && filters[i] == f;
      assert FilterNames(filters)[i] == n;
    }
    forall n | n in FilterNames(filters)
      ensures n in Globals(filters)
    {
      var i :| 0 <= i < |filters| && FilterNames(filters)[i] == n;
      assert filters[i] in filters;
    }
  }

  function PlacedWidgets(widgets: seq<Widget>): (ps: seq<Placed>)
    ensures |ps| == |widgets|
  {
    if widgets == [] then []
    else [Placed(widgets[0].name, widgets[0].order, widgets[0].cols)] + PlacedWidgets(widgets[1..])
  }

  /** Each widget once, in declared order, with its own name, order and cols. */
  lemma {:induction false} PlacedExactly(widgets: seq<Widget>, i: nat)
    requires i < |widgets|
    ensures PlacedWidgets(widgets)[i] == Placed(widgets[i].name, widgets[i].order, widgets[i].cols)
    decreases i
  {
    if i > 0 {
      PlacedExactly(widgets[1..], i - 1);
    }
  }

  ghost predicate LayoutOk(ps: seq<Placed>) {
    AllColsValid(ps) && AllColsValid(Ordered(ps)) && forall b :: 0 <= b < |BREAKPOINTS| ==> FillsRows(ps, b)
  }

  /** `config.get("widgets") or []`. */
  function WidgetsOf(d: Dashboard): seq<Widget> {
    if d.head.widgetsEntry == WidgetList then d.widgets else []
  }

  ghost predicate ValidDashboard(d: Dashboard) {
    && d.head.isDict && d.head.schemaVersion == "1.0" && d.head.name != "" && d.head.title != ""
    && !d.head.filters.NotAList? && ValidFilters(ListOf(d.head.filters))
    && d.head.widgetsEntry != WrongType
    && ValidWidgets(WidgetsOf(d), Globals(ListOf(d.head.filters)))
    && LayoutOk(PlacedWidgets(WidgetsOf(d)))
    && d.head.permission != NotText && d.head.tooltipOk
  }

  // ---------------------------------------------------------------------------------------------
  // Permissions
  // ---------------------------------------------------------------------------------------------

  /** What a request brings: the caller's permissions and the modules active for the tenant. */
  datatype Caller = Caller(granted: set<string>, modules: set<string>)

  /** No declared permission means allowed; any mode but "all" means "any". */
  predicate Allowed(c: Caller, needed: seq<string>, mode: string) {
    || needed == []
    || (if mode == "all" then forall p :: p in needed ==> p in c.granted else exists p :: p in needed && p in c.granted)
  }

  predicate MayAct(c: Caller, a: Action) {
    Allowed(c, a.permissions, a.mode)
  }

  predicate MaySee(c: Caller, w: Widget) {
    w.visible && Allowed(c, w.permissions, w.mode)
  }

  /** Drops a second action the caller may not use; a copy, never a change of the original. */
  function WithAllowedSecondary(c: Caller, a: Action): Action {
    if a.secondary.Secondary? && !MayAct(c, a.secondary.action) then a.(secondary := NoSecondary) else a
  }

  function FilterActions(c: Caller, actions: seq<Action>): seq<Action> {
    if actions == [] then []
    else (if MayAct(c, actions[0]) then [WithAllowedSecondary(c, actions[0])] else []) + FilterActions(c, actions[1..])
  }

  function FilterSingle(c: Caller, action: Option<Action>): Option<Action> {
    if action.Some? && MayAct(c, action.value) then Some(WithAllowedSecondary(c, action.value)) else None
  }

  function FilterWidget(c: Caller, w: Widget): Widget {
    w.(actions := Items(FilterActions(c, ListOf(w.actions))),
       rowActions := Items(FilterActions(c, ListOf(w.rowActions))),
       primary := FilterSingle(c, w.primary),
       item := FilterSingle(c, w.item))
  }

  function FilterWidgets(c: Caller, widgets: seq<Widget>): seq<Widget> {
    if widgets == [] then []
    else (if MaySee(c, widgets[0]) then [FilterWidget(c, widgets[0])] else []) + FilterWidgets(c, widgets[1..])
  }

  datatype EngineError =
    | DashboardNotFound | ModuleNotActive | Unauthorized | WidgetNotFound
    | BadFilters(fields: set<string>)
    | UnknownProvider

  /** `get_widget_or_raise`: the first widget of that name, then its own permissions. */
  function FindWidget(c: Caller, widgets: seq<Widget>, name: string): Result<Widget, EngineError> {
    if widgets == [] then Err(WidgetNotFound)
    else if widgets[0].name == name then (if MaySee(c, widgets[0]) then Ok(widgets[0]) else Err(Unauthorized))
    else FindWidget(c, widgets[1..], name)
  }

  /** `ensure_dashboard_authorized`: the module first, then the dashboard's own permission. */
  function Gate(c: Caller, h: Head): Result<(), EngineError> {
    if (if h.app.Some? && h.app.value != "" then h.app.value else h.name) !in c.modules then Err(ModuleNotActive)
    else if h.permission.Codename? && h.permission.name != "" && h.permission.name !in c.granted then Err(Unauthorized)
    else Ok(())
  }

  // ---------------------------------------------------------------------------------------------
  // What the filter leaves
  // ---------------------------------------------------------------------------------------------

  /** Nothing is asked for, or all of it is granted, or in any mode but "all" some of it is. */
  ghost predicate Permitted(c: Caller, needed: seq<string>, mode: string) {
    var asked := set p | p in needed;
    asked == {} || asked <= c.granted || (mode != "all" && asked * c.granted != {})
  }

  lemma AllowedExactly(c: Caller, needed: seq<string>, mode: string)
    ensures Allowed(c, needed, mode) <==> Permitted(c, needed, mode)
  {
    var asked := set p | p in needed;
    if needed != [] {
      assert needed[0] in asked;
    }
    if p :| p in needed && p in c.granted {
      assert p in asked * c.granted;
    }
    if p :| p in asked * c.granted {
      assert p in needed;
    }
  }

  /** How many of the first `n` actions the caller may use. */
  ghost function Rank(c: Caller, actions: seq<Action>, n: nat): nat
    requires n <= |actions|
  {
    if n == 0 then 0
    else Rank(c, actions, n - 1) + if Permitted(c, actions[n - 1].permissions, actions[n - 1].mode) then 1 else 0
  }

  /** The same action, without its second action if the caller may not use that. */
  ghost predicate Trimmed(c: Caller, before: Action, after: Action) {
    && after == before.(secondary := after.secondary)
    && after.secondary ==
         if before.secondary.Secondary?
            && !Permitted(c, before.secondary.action.permissions, before.secondary.action.mode)
         then NoSecondary else before.secondary
  }

  lemma TrimmedExactly(c: Caller, a: Action)
    ensures MayAct(c, a) <==> Permitted(c, a.permissions, a.mode)
    ensures Trimmed(c, a, WithAllowedSecondary(c, a))
  {
    AllowedExactly(c, a.permissions, a.mode);
    if a.secondary.Secondary? {
      AllowedExactly(c, a.secondary.action.permissions, a.secondary.action.mode);
    }
  }

  lemma {:induction false} FilterActionsSnoc(c: Caller, actions: seq<Action>, a: Action)
    ensures FilterActions(c, actions + [a])
         == FilterActions(c, actions) + (if MayAct(c, a) then [WithAllowedSecondary(c, a)] else [])
    decreases |actions|
  {
    if actions == [] {
      assert actions + [a] == [a];
      assert [a][1..] == [];
    } else {
      assert (actions + [a])[1..] == actions[1..] + [a];
      FilterActionsSnoc(c, actions[1..], a);
    }
  }

  /** Action `i` is kept if it is permitted, at its rank among the first `n`. */
  ghost predicate KeptAt(c: Caller, actions: seq<Action>, kept: seq<Action>, i: nat)
    requires i < |actions|
  {
    Permitted(c, actions[i].permissions, actions[i].mode) ==>
      Rank(c, actions, i) < |kept| && Trimmed(c, actions[i], kept[Rank(c, actions, i)])
  }

  /** Exactly the permitted actions are kept, each at its rank, so in their original order. */
  lemma {:induction false} AllowedActionsKeptInOrder(c: Caller, actions: seq<Action>, n: nat)
    requires n <= |actions|
    ensures |FilterActions(c, actions[..n])| == Rank(c, actions, n)
    ensures forall i :: 0 <= i < n ==> KeptAt(c, actions, FilterActions(c, actions[..n]), i)
    decreases n
  {
    if n > 0 {
      AllowedActionsKeptInOrder(c, actions, n - 1);
      var before, last := FilterActions(c, actions[..n - 1]), actions[n - 1];
      assert actions[..n] == actions[..n - 1] + [last];
      FilterActionsSnoc(c, actions[..n - 1], last);
      TrimmedExactly(c, last);
      forall i | 0 <= i < n
        ensures KeptAt(c, actions, FilterActions(c, actions[..n]), i)
      {
        assert i < n - 1 ==> KeptAt(c, actions, before, i);
      }
    }
  }

  /** Permitted itself, and so is every second action nested in it. */
  ghost predicate AllowedThroughout(c: Caller, a: Action) {
    Permitted(c, a.permissions, a.mode) && (a.secondary.Secondary? ==> AllowedThroughout(c, a.secondary.action))
  }

  /** Of a validated list only actions allowed at every depth are left. */
  lemma {:induction false} OnlyAllowedActionsLeft(c: Caller, actions: seq<Action>, a: Action)
    requires forall x :: x in actions ==> ValidAction(x)
    requires a in FilterActions(c, actions)
    ensures AllowedThroughout(c, a)
    decreases |actions|
  {
    if a in FilterActions(c, actions[1..]) {
      OnlyAllowedActionsLeft(c, actions[1..], a);
    } else {
      assert a == WithAllowedSecondary(c, actions[0]) && actions[0] in actions;
      TrimmedExactly(c, actions[0]);
    }
  }

  function SingleOf(action: Option<Action>): seq<Action> {
    if action.Some? then [action.value] else []
  }

  /** Every action a widget carries, in whichever slot. */
  function Carried(w: Widget): seq<Action> {
    ListOf(w.actions) + ListOf(w.rowActions) + SingleOf(w.primary) + SingleOf(w.item)
  }

  lemma {:induction false} KeptWidget(c: Caller, widgets: seq<Widget>, kept: Widget) returns (w: Widget)
    requires kept in FilterWidgets(c, widgets)
    ensures w in widgets && MaySee(c, w) && kept == FilterWidget(c, w)
    decreases |widgets|
  {
    if kept in FilterWidgets(c, widgets[1..]) {
      w := KeptWidget(c, widgets[1..], kept);
    } else {
      w := widgets[0];
    }
  }

  lemma AllowedList(c: Caller, actions: Listing<Action>, a: Action)
    requires ValidActions(ListOf(actions)) && a in FilterActions(c, ListOf(actions))
    ensures AllowedThroughout(c, a)
  {
    OnlyAllowedActionsLeft(c, ListOf(actions), a);
  }

  lemma AllowedSingle(c: Caller, action: Option<Action>, a: Action)
    requires action.Some? ==> ValidAction(action.value)
    requires a in SingleOf(FilterSingle(c, action))
    ensures AllowedThroughout(c, a)
  {
    assert a == WithAllowedSecondary(c, action.value);
    TrimmedExactly(c, action.value);
  }

  /** Nothing in the response to a request is forbidden to its caller: no widget, and no action at any depth. */
  lemma NothingForbiddenInResponse(c: Caller, d: Dashboard, kept: Widget)
    requires ValidDashboard(d) && kept in FilterWidgets(c, WidgetsOf(d))
    ensures kept.visible && Permitted(c, kept.permissions, kept.mode)
    ensures forall a :: a in Carried(kept) ==> AllowedThroughout(c, a)
  {
    var w := KeptWidget(c, WidgetsOf(d), kept);
    AllowedExactly(c, w.permissions, w.mode);
    assert ValidWidget(w, Globals(ListOf(d.head.filters)));
    NothingForbiddenOn(c, w, Globals(ListOf(d.head.filters)));
  }

  lemma NothingForbiddenOn(c: Caller, w: Widget, globals: set<string>)
    requires ValidWidget(w, globals)
    ensures forall a :: a in Carried(FilterWidget(c, w)) ==> AllowedThroughout(c, a)
  {
    forall a | a in Carried(FilterWidget(c, w))
      ensures AllowedThroughout(c, a)
    {
      if a in FilterActions(c, ListOf(w.actions)) {
        AllowedList(c, w.actions, a);
      } else if a in FilterActions(c, ListOf(w.rowActions)) {
        AllowedList(c, w.rowActions, a);
      } else if a in SingleOf(FilterSingle(c, w.primary)) {
        AllowedSingle(c, w.primary, a);
      } else {
        AllowedSingle(c, w.item, a);
      }
    }
  }

  /** Validation is what makes that true: an unvalidated third action would be let through unchecked. */
  lemma ThirdActionsEscape() returns (c: Caller, a: Action)
    ensures !ValidAction(a) && a in FilterActions(c, [a]) && !AllowedThroughout(c, a)
  {
    c := Caller({}, {});
    var third := Action(true, "c", "refresh", false, "", None, ["secret"], "any", true, true, NoSecondary);
    var second := third.(name := "b", permissions := [], secondary := Secondary(third));
    a := second.(name := "a", secondary := Secondary(second));
    assert "secret" in third.permissions;
    TrimmedExactly(c, third);
    assert !MayAct(c, third);
    assert FilterActions(c, [a]) == [a];
  }

  // ---------------------------------------------------------------------------------------------
  // What the filter keeps
  // ---------------------------------------------------------------------------------------------

  /** `after` holds exactly the permitted actions of `before`, in their order, each trimmed. */
  ghost predicate KeepsPermitted(c: Caller, before: seq<Action>, after: seq<Action>) {
    && |after| == Rank(c, before, |before|)
    && forall i :: 0 <= i < |before| ==> KeptAt(c, before, after, i)
  }

  /** One optional action: kept, trimmed, exactly if it is permitted. */
  ghost predicate KeepsSingle(c: Caller, before: Option<Action>, after: Option<Action>) {
    && (after.Some? <==> before.Some? && Permitted(c, before.value.permissions, before.value.mode))
    && (after.Some? ==> Trimmed(c, before.value, after.value))
  }

  /** In each of the four slots exactly what is permitted; everything else of the widget is as declared. */
  ghost predicate ShownAs(c: Caller, w: Widget, kept: Widget) {
    && kept == w.(actions := kept.actions, rowActions := kept.rowActions, primary := kept.primary, item := kept.item)
    && kept.actions.Items? && KeepsPermitted(c, ListOf(w.actions), kept.actions.items)
    && kept.rowActions.Items? && KeepsPermitted(c, ListOf(w.rowActions), kept.rowActions.items)
    && KeepsSingle(c, w.primary, kept.primary)
    && KeepsSingle(c, w.item, kept.item)
  }

  lemma FilteredList(c: Caller, actions: seq<Action>)
    ensures KeepsPermitted(c, actions, FilterActions(c, actions))
  {
    AllowedActionsKeptInOrder(c, actions, |actions|);
    assert actions[..|actions|] == actions;
  }

  lemma FilteredSingle(c: Caller, action: Option<Action>)
    ensures KeepsSingle(c, action, FilterSingle(c, action))
  {
    if action.Some? {
      TrimmedExactly(c, action.value);
    }
  }

  lemma FilteredWidget(c: Caller, w: Widget)
    ensures ShownAs(c, w, FilterWidget(c, w))
  {
    FilteredList(c, ListOf(w.actions));
    FilteredList(c, ListOf(w.rowActions));
    FilteredSingle(c, w.primary);
    FilteredSingle(c, w.item);
  }

  /** How many of the first `n` widgets are visible and permitted. */
  ghost function WidgetRank(c: Caller, widgets: seq<Widget>, n: nat): nat
    requires n <= |widgets|
  {
    if n == 0 then 0
    else
      var w := widgets[n - 1];
      WidgetRank(c, widgets, n - 1) + if w.visible && Permitted(c, w.permissions, w.mode) then 1 else 0
  }

  lemma {:induction false} FilterWidgetsAppend(c: Caller, widgets: seq<Widget>, w: Widget)
    ensures FilterWidgets(c, widgets + [w]) ==
              FilterWidgets(c, widgets) + (if MaySee(c, w) then [FilterWidget(c, w)] else [])
    decreases |widgets|
  {
    if widgets == [] {
      assert widgets + [w] == [w];
      assert [w][1..] == [];
    } else {
      assert (widgets + [w])[1..] == widgets[1..] + [w];
      FilterWidgetsAppend(c, widgets[1..], w);
    }
  }

  /** Widget `i` is shown if it is visible and permitted, at its rank. */
  ghost predicate ShownAt(c: Caller, widgets: seq<Widget>, kept: seq<Widget>, i: nat)
    requires i < |widgets|
  {
    widgets[i].visible && Permitted(c, widgets[i].permissions, widgets[i].mode) ==>
      WidgetRank(c, widgets, i) < |kept| && ShownAs(c, widgets[i], kept[WidgetRank(c, widgets, i)])
  }

  /** The response shows exactly the visible and permitted widgets, in their order, each with all that is permitted. */
  lemma {:induction false} PermittedIsShown(c: Caller, widgets: seq<Widget>, n: nat)
    requires n <= |widgets|
    ensures |FilterWidgets(c, widgets[..n])| == WidgetRank(c, widgets, n)
    ensures forall i :: 0 <= i < n ==> ShownAt(c, widgets, FilterWidgets(c, widgets[..n]), i)
    decreases n
  {
    if n > 0 {
      PermittedIsShown(c, widgets, n - 1);
      var before, last := FilterWidgets(c, widgets[..n - 1]), widgets[n - 1];
      assert widgets[..n] == widgets[..n - 1] + [last];
      FilterWidgetsAppend(c, widgets[..n - 1], last);
      AllowedExactly(c, last.permissions, last.mode);
      FilteredWidget(c, last);
      forall i | 0 <= i < n
        ensures ShownAt(c, widgets, FilterWidgets(c, widgets[..n]), i)
      {
        assert i < n - 1 ==> ShownAt(c, widgets, before, i);
      }
    }
  }

  lemma {:induction false} FilterActionsIdempotent(c: Caller, actions: seq<Action>)
    ensures FilterActions(c, FilterActions(c, actions)) == FilterActions(c, actions)
    decreases |actions|
  {
    if actions != [] {
      FilterActionsIdempotent(c, actions[1..]);
      var rest := FilterActions(c, actions[1..]);
      if MayAct(c, actions[0]) {
        var a := WithAllowedSecondary(c, actions[0]);
        assert MayAct(c, a) && WithAllowedSecondary(c, a) == a;
        assert ([a] + rest)[1..] == rest;
      } else {
        assert FilterActions(c, actions) == rest;
      }
    }
  }

  lemma FilterWidgetIdempotent(c: Caller, w: Widget)
    ensures FilterWidget(c, FilterWidget(c, w)) == FilterWidget(c, w)
    ensures MaySee(c, FilterWidget(c, w)) == MaySee(c, w)
  {
    FilterActionsIdempotent(c, ListOf(w.actions));
    FilterActionsIdempotent(c, ListOf(w.rowActions));
  }

  /** Filtering a response again changes nothing. */
  lemma {:induction false} FilterWidgetsIdempotent(c: Caller, widgets: seq<Widget>)
    ensures FilterWidgets(c, FilterWidgets(c, widgets)) == FilterWidgets(c, widgets)
    decreases |widgets|
  {
    if widgets != [] {
      FilterWidgetsIdempotent(c, widgets[1..]);
      FilterWidgetIdempotent(c, widgets[0]);
      var rest := FilterWidgets(c, widgets[1..]);
      if MaySee(c, widgets[0]) {
        assert ([FilterWidget(c, widgets[0])] + rest)[1..] == rest;
      } else {
        assert FilterWidgets(c, widgets) == rest;
      }
    }
  }

  lemma {:induction false} FilteredNames(c: Caller, widgets: seq<Widget>, name: string)
    ensures (exists w :: w in FilterWidgets(c, widgets) && w.name == name) <==>
            (exists w :: w in widgets && w.name == name && MaySee(c, w))
    decreases |widgets|
  {
    if widgets != [] {
      FilteredNames(c, widgets[1..], name);
      var rest := FilterWidgets(c, widgets[1..]);
      assert widgets == [widgets[0]] + widgets[1..];
      if MaySee(c, widgets[0]) {
        assert FilterWidgets(c, widgets) == [FilterWidget(c, widgets[0])] + rest;
        assert FilterWidget(c, widgets[0]) in FilterWidgets(c, widgets);
        assert forall w :: w in FilterWidgets(c, widgets) <==> w == FilterWidget(c, widgets[0]) || w in rest;
      } else {
        assert FilterWidgets(c, widgets) == rest;
      }
    }
  }

  lemma {:induction false} FindsUnique(c: Caller, widgets: seq<Widget>, name: string)
    requires DistinctNames(WidgetNames(widgets))
    ensures FindWidget(c, widgets, name).Ok? <==> exists w :: w in widgets && w.name == name && MaySee(c, w)
    decreases |widgets|
  {
    if widgets != [] {
      assert WidgetNames(widgets)[1..] == WidgetNames(widgets[1..]);
      FindsUnique(c, widgets[1..], name);
      assert widgets == [widgets[0]] + widgets[1..];
      if widgets[0].name == name {
        forall i | 0 < i < |widgets|
          ensures widgets[i].name != name
        {
          assert WidgetNames(widgets)[0] != WidgetNames(widgets)[i];
        }
      }
    }
  }

  /** For a validated dashboard the two endpoints agree: a widget is listed exactly when its own endpoint accepts it. */
  lemma EndpointsAgree(c: Caller, d: Dashboard, name: string)
    requires ValidDashboard(d)
    ensures (exists w :: w in FilterWidgets(c, WidgetsOf(d)) && w.name == name) <==>
              FindWidget(c, WidgetsOf(d), name).Ok?
  {
    FilteredNames(c, WidgetsOf(d), name);
    FindsUnique(c, WidgetsOf(d), name);
  }
}
