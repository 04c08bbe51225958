/** Discovery of the configurations that the installed apps declare. */
module Discovery {
  import opened Wrappers
  import opened Dashboards
  import opened Validator
  import opened Registry

  /** Importing `<app>.dashboard`: absent, failing for another reason, or a module with DASHBOARD and DASHBOARDS. */
  datatype Import = Missing | Broken | Imported(single: Option<Dashboard>, many: seq<Dashboard>)

  datatype App = App(name: string, source: Import)

  // ---------------------------------------------------------------------------------------------
  // Which configuration is registered
  // ---------------------------------------------------------------------------------------------

  ghost predicate Adds(m: map<string, Dashboard>, d: Dashboard) {
    ValidDashboard(d) && d.head.name !in m
  }

  /** The registry after the configurations have been offered in turn. */
  ghost function Absorb(m: map<string, Dashboard>, found: seq<Dashboard>): map<string, Dashboard>
    decreases |found|
  {
    if found == [] then m
    else
      var before := Absorb(m, found[..|found| - 1]);
      var d := found[|found| - 1];
      if Adds(before, d) then before[d.head.name := d] else before
  }

  /** How many of them were recorded as errors. */
  ghost function Rejected(m: map<string, Dashboard>, found: seq<Dashboard>): nat
    decreases |found|
  {
    if found == [] then 0
    else
      var front := found[..|found| - 1];
      Rejected(m, front) + if Adds(Absorb(m, front), found[|found| - 1]) then 0 else 1
  }

  lemma OneMore(m: map<string, Dashboard>, found: seq<Dashboard>, d: Dashboard)
    ensures Absorb(m, found + [d]) ==
              (if Adds(Absorb(m, found), d) then Absorb(m, found)[d.head.name := d] else Absorb(m, found))
    ensures Rejected(m, found + [d]) == Rejected(m, found) + if Adds(Absorb(m, found), d) then 0 else 1
  {
    assert (found + [d])[..|found|] == found;
  }

  /** Nothing is lost: every configuration found is registered or recorded as an error, never both. */
  lemma {:induction false} ConfigsConserved(m: map<string, Dashboard>, found: seq<Dashboard>)
    ensures |Absorb(m, found)| + Rejected(m, found) == |m| + |found|
    decreases |found|
  {
    if found != [] {
      ConfigsConserved(m, found[..|found| - 1]);
    }
  }

  /** `found[i]` is the first valid configuration of that name. */
  ghost predicate FirstValid(found: seq<Dashboard>, name: string, i: nat) {
    && i < |found| && ValidDashboard(found[i]) && found[i].head.name == name
    && forall j :: 0 <= j < i ==> !(ValidDashboard(found[j]) && found[j].head.name == name)
  }

  lemma FirstExists(found: seq<Dashboard>, name: string, n: nat)
    requires n < |found| && ValidDashboard(found[n]) && found[n].head.name == name
    ensures exists i: nat :: i <= n && FirstValid(found, name, i)
    decreases n
  {
    if j: nat :| j < n && ValidDashboard(found[j]) && found[j].head.name == name {
      FirstExists(found, name, j);
    } else {
      assert FirstValid(found, name, n);
    }
  }

  /** The last one is the first of its name exactly if no earlier one is. */
  lemma LastIsFirst(found: seq<Dashboard>, n: nat, name: string)
    requires |found| == n + 1
    ensures forall i: nat :: i < n ==> (FirstValid(found, name, i) <==> FirstValid(found[..n], name, i))
    ensures FirstValid(found, name, n) <==>
            && ValidDashboard(found[n]) && found[n].head.name == name
            && forall i: nat :: !FirstValid(found[..n], name, i)
  {
    if j: nat :| j < n && ValidDashboard(found[j]) && found[j].head.name == name {
      assert found[..n][j] == found[j];
      FirstExists(found[..n], name, j);
    }
  }

  /** A name keeps its registration, or else maps to the first valid configuration carrying it. */
  lemma {:induction false} FirstValidWins(m: map<string, Dashboard>, found: seq<Dashboard>, name: string)
    ensures name in m ==> name in Absorb(m, found) && Absorb(m, found)[name] == m[name]
    ensures name !in m ==> (name in Absorb(m, found) <==> exists i: nat :: FirstValid(found, name, i))
    ensures name !in m ==> forall i: nat :: FirstValid(found, name, i) ==> Absorb(m, found)[name] == found[i]
    decreases |found|
  {
    if found != [] {
      var n := |found| - 1;
      FirstValidWins(m, found[..n], name);
      LastIsFirst(found, n, name);
      if i: nat :| FirstValid(found[..n], name, i) {
        assert FirstValid(found, name, i);
      }
    }
  }

  /** Whatever is registered from nothing has passed the validator, under its own name. */
  lemma {:induction false} RegisteredAreValid(found: seq<Dashboard>, name: string)
    requires name in Absorb(map[], found)
    ensures ValidDashboard(Absorb(map[], found)[name]) && Absorb(map[], found)[name].head.name == name
    decreases |found|
  {
    var front := found[..|found| - 1];
    if name in Absorb(map[], front) {
      RegisteredAreValid(front, name);
    }
  }

  /** Running again after an import failed part of the way registers what one undisturbed run registers. */
  lemma RetryRegistersTheSame(m: map<string, Dashboard>, first: seq<Dashboard>, rest: seq<Dashboard>)
    ensures Absorb(Absorb(m, first), first + rest) == Absorb(m, first + rest)
  {
    var once, again := Absorb(m, first + rest), Absorb(Absorb(m, first), first + rest);
    forall name: string
      ensures name in once <==> name in again
      ensures name in once ==> once[name] == again[name]
    {
      FirstValidWins(m, first, name);
      FirstValidWins(m, first + rest, name);
      FirstValidWins(Absorb(m, first), first + rest, name);
      if i: nat :| FirstValid(first, name, i) {
        assert FirstValid(first + rest, name, i);
      }
    }
  }

  // ---------------------------------------------------------------------------------------------
  // What the apps declare
  // ---------------------------------------------------------------------------------------------

  /** An extra dashboard belongs to the declaring app's module unless it says otherwise. */
  function WithDefaultApp(h: Head, app: string): Head {
    if h.isDict && h.app.None? then h.(app := Some(app)) else h
  }

  function WithDefault(name: string, d: Dashboard): Dashboard {
    d.(head := WithDefaultApp(d.head, name))
  }

  /** DASHBOARD first, then DASHBOARDS in their order. */
  function Declared(app: App): seq<Dashboard> {
    match app.source
    case Imported(single, many) =>
      (if single.None? then [] else [single.value])
      + seq(|many|, i requires 0 <= i < |many| => WithDefault(app.name, many[i]))
    case _ => []
  }

  /** The single one as it is; of an extra only a missing module is filled in, with the app's name. */
  lemma DeclaredExactly(app: App, single: Option<Dashboard>, many: seq<Dashboard>)
    requires app.source == Imported(single, many)
    ensures single == None ==> |Declared(app)| == |many|
    ensures single != None ==> |Declared(app)| == 1 + |many| && Declared(app)[0] == single.value
    ensures forall i :: 0 <= i < |many| ==>
              var extra, config := many[i], Declared(app)[if single == None then i else i + 1];
              && config.widgets == extra.widgets
              && (config.head == extra.head ||
                  (extra.head.app == None && config.head == extra.head.(app := Some(app.name))))
              && (extra.head.isDict ==> config.head.app != None)
  {
  }

  /** Everything the first `n` apps declare, in app order. */
  function Found(apps: seq<App>, n: nat): seq<Dashboard>
    requires n <= |apps|
  {
    if n == 0 then [] else Found(apps, n - 1) + Declared(apps[n - 1])
  }

  /** How many apps are looked at before an import fails. */
  function Reached(apps: seq<App>): (n: nat)
    ensures n <= |apps| && (n < |apps| ==> apps[n].source.Broken?)
    ensures forall i :: 0 <= i < n ==> !apps[i].source.Broken?
    decreases |apps|
  {
    if apps == [] || apps[0].source.Broken? then 0 else 1 + Reached(apps[1..])
  }

  /** Contents and error count after everything found has been offered to the registry. */
  ghost predicate Offered(apps: seq<App>, before: map<string, Dashboard>, errorsBefore: nat,
                          after: map<string, Dashboard>, errorsAfter: nat) {
    var found := Found(apps, Reached(apps));
    after == Absorb(before, found) && errorsAfter == errorsBefore + Rejected(before, found)
  }

  /**
    Discovery from nothing: what is registered and what is recorded as an error add up to what was found,
    each name has the first valid configuration carrying it, and all that is registered is valid.
   */
  lemma DiscoveryFromNothing(apps: seq<App>, registered: map<string, Dashboard>, errors: nat, name: string)
    requires Offered(apps, map[], 0, registered, errors)
    ensures |registered| + errors == |Found(apps, Reached(apps))|
    ensures name in registered <==> exists i: nat :: FirstValid(Found(apps, Reached(apps)), name, i)
    ensures forall i: nat :: FirstValid(Found(apps, Reached(apps)), name, i) ==>
              registered[name] == Found(apps, Reached(apps))[i]
    ensures name in registered ==> ValidDashboard(registered[name]) && registered[name].head.name == name
  {
    var found := Found(apps, Reached(apps));
    ConfigsConserved(map[], found);
    FirstValidWins(map[], found, name);
    if name in registered {
      RegisteredAreValid(found, name);
    }
  }

  // ---------------------------------------------------------------------------------------------
  // The service
  // ---------------------------------------------------------------------------------------------

  /** The dicts that executing a module's source creates. */
  method Materialize(d: Dashboard) returns (config: DashboardObject)
    ensures fresh(config) && fresh(config.widgets) && config.Value() == d
  {
    var ws: seq<WidgetObject> := [];
    var i := 0;
    while i < |d.widgets|
      invariant 0 <= i == |ws| <= |d.widgets| && fresh(ws)
      invariant forall k :: 0 <= k < i ==> ws[k].value == d.widgets[k]
    {
      var w := new WidgetObject(d.widgets[i]);
      ws := ws + [w];
      i := i + 1;
    }
    config := new DashboardObject(d.head, ws);
  }

  /** `extra = {**extra}; extra.setdefault("module", app_config.label)`: the declared dict itself is not changed. */
  method WithModule(extra: DashboardObject, name: string) returns (config: DashboardObject)
    ensures config.Value() == WithDefault(name, extra.Value())
    ensures config.Value().widgets == extra.Value().widgets
    ensures extra.head.isDict && extra.head.app == None ==> config.head == extra.head.(app := Some(name))
    ensures !extra.head.isDict || extra.head.app != None ==> config.head == extra.head
  {
    config := extra;
    if extra.head.isDict {
      config := new DashboardObject(extra.head, extra.widgets);
      if config.head.app.None? {
        config.head := config.head.(app := Some(name));
      }
    }
  }

  /** `configs`: the single dashboard if there is one, then each extra with its default module. */
  method Configs(app: App) returns (configs: seq<DashboardObject>)
    requires app.source.Imported?
    ensures |configs| == |Declared(app)|
    ensures forall i :: 0 <= i < |configs| ==> configs[i].Value() == Declared(app)[i]
  {
    configs := [];
    if app.source.single.Some? {
      var config := Materialize(app.source.single.value);
      configs := [config];
    }
    ghost var offset := |configs|;
    var i := 0;
    while i < |app.source.many|
      invariant 0 <= i <= |app.source.many| && |configs| == offset + i
      invariant forall k :: 0 <= k < |configs| ==> configs[k].Value() == Declared(app)[k]
    {
      var extra := Materialize(app.source.many[i]);
      var config := WithModule(extra, app.name);
      configs := configs + [config];
      i := i + 1;
    }
  }

  /** Offering one more configuration, on its own or as part of the list. */
  lemma Chain(m: map<string, Dashboard>, found: seq<Dashboard>, i: nat)
    requires i < |found|
    ensures Absorb(m, found[..i + 1]) == Absorb(Absorb(m, found[..i]), [found[i]])
    ensures Rejected(m, found[..i + 1]) == Rejected(m, found[..i]) + Rejected(Absorb(m, found[..i]), [found[i]])
  {
    assert found[..i + 1] == found[..i] + [found[i]];
    OneMore(m, found[..i], found[i]);
    OneMore(Absorb(m, found[..i]), [], found[i]);
    assert [] + [found[i]] == [found[i]];
  }

  lemma {:induction false} AbsorbAppend(m: map<string, Dashboard>, a: seq<Dashboard>, b: seq<Dashboard>)
    ensures Absorb(m, a + b) == Absorb(Absorb(m, a), b)
    ensures Rejected(m, a + b) == Rejected(m, a) + Rejected(Absorb(m, a), b)
    decreases |b|
  {
    if b == [] {
      assert a + b == a;
    } else {
      var n := |b| - 1;
      AbsorbAppend(m, a, b[..n]);
      assert a + b == (a + b[..n]) + [b[n]];
      OneMore(m, a + b[..n], b[n]);
    }
  }

  class DashboardDiscovery {
    const registry: DashboardRegistry
    var discovered: bool

    constructor (registry: DashboardRegistry)
      ensures this.registry == registry && !discovered
    {
      this.registry, discovered := registry, false;
    }

    /** `_register`: validates, then registers or records an error. */
    method RegisterConfig(config: DashboardObject, app: string)
      requires registry.Valid()
      modifies registry
      ensures registry.Valid()
      ensures registry.Contents() == Absorb(old(registry.Contents()), [old(config.Value())])
      ensures |registry.errors| == |old(registry.errors)| + Rejected(old(registry.Contents()), [old(config.Value())])
    {
      OneMore(registry.Contents(), [], config.Value());
      assert [] + [config.Value()] == [config.Value()];
      var verdict := Validate(config.Value());
      if verdict.Err? {
        registry.RecordError(Invalid(app, verdict.error));
        return;
      }
      var added := registry.Register(config.head.name, config, app);
    }

    method RegisterAll(configs: seq<DashboardObject>, app: string, ghost values: seq<Dashboard>)
      requires registry.Valid()
      requires |values| == |configs| && forall i :: 0 <= i < |configs| ==> configs[i].Value() == values[i]
      modifies registry
      ensures registry.Valid()
      ensures registry.Contents() == Absorb(old(registry.Contents()), values)
      ensures |registry.errors| == |old(registry.errors)| + Rejected(old(registry.Contents()), values)
    {
      ghost var before, errors := registry.Contents(), |registry.errors|;
      var i := 0;
      while i < |configs|
        invariant 0 <= i <= |configs| && registry.Valid()
        invariant registry.Contents() == Absorb(before, values[..i])
        invariant |registry.errors| == errors + Rejected(before, values[..i])
      {
        Chain(before, values, i);
        RegisterConfig(configs[i], app);
        i := i + 1;
      }
      assert values[..i] == values;
    }

    /** One app whose import did not fail. */
    method Load(app: App)
      requires registry.Valid() && !app.source.Broken?
      modifies registry
      ensures registry.Valid()
      ensures registry.Contents() == Absorb(old(registry.Contents()), Declared(app))
      ensures |registry.errors| == |old(registry.errors)| + Rejected(old(registry.Contents()), Declared(app))
    {
      if app.source.Imported? {
        var configs := Configs(app);
        RegisterAll(configs, app.name, Declared(app));
      }
    }

    /** The loop over the installed apps, left as soon as an import fails. */
    method LoadAll(apps: seq<App>) returns (raised: bool)
      requires registry.Valid()
      modifies registry
      ensures registry.Valid() && raised == (Reached(apps) < |apps|)
      ensures Offered(apps, old(registry.Contents()), |old(registry.errors)|, registry.Contents(), |registry.errors|)
    {
      ghost var before, errors := registry.Contents(), |registry.errors|;
      var i := 0;
      while i < |apps|
        invariant 0 <= i <= Reached(apps) && registry.Valid()
        invariant registry.Contents() == Absorb(before, Found(apps, i))
        invariant |registry.errors| == errors + Rejected(before, Found(apps, i))
      {
        if apps[i].source.Broken? {
          return true;
        }
        AbsorbAppend(before, Found(apps, i), Declared(apps[i]));
        Load(apps[i]);
        i := i + 1;
      }
      raised := false;
    }

    /**
      Unless everything was discovered before, goes through the apps in order and offers the registry what
      each declares. An app without a dashboard module is skipped; any other import error is raised, with
      the apps before it already registered and discovery not marked as done.
     */
    method Discover(force: bool, apps: seq<App>) returns (raised: bool)
      requires registry.Valid()
      modifies this, registry
      ensures registry.Valid()
      ensures old(discovered) && !force ==>
                && !raised && discovered
                && registry.Contents() == old(registry.Contents()) && registry.errors == old(registry.errors)
      ensures !old(discovered) || force ==>
                && raised == (Reached(apps) < |apps|) && discovered == (!raised || old(discovered))
                && Offered(apps,
                           if force then map[] else old(registry.Contents()),
                           if force then 0 else |old(registry.errors)|,
                           registry.Contents(), |registry.errors|)
    {
      if discovered && !force {
        return false;
      }
      if force {
        registry.Clear();
      }
      raised := LoadAll(apps);
      ghost var after := registry.Contents();
      discovered := !raised || discovered;
      assert registry.Contents() == after;
    }
  }
}
