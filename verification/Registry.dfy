/** The process-wide registry of dashboards, and the mutable configurations it copies in and out. */
module Registry {
  import opened Dashboards
  import opened Validator

  /** A widget dict. */
  class WidgetObject {
    var value: Widget

    constructor (value: Widget)
      ensures this.value == value
    {
      this.value := value;
    }
  }

  function Snapshot(ws: seq<WidgetObject>): seq<Widget>
    reads ws
  {
    seq(|ws|, i requires 0 <= i < |ws| reads ws => ws[i].value)
  }

  predicate Distinct(ws: seq<WidgetObject>) {
    forall i, j :: 0 <= i < j < |ws| ==> ws[i] != ws[j]
  }

  /** A dashboard dict, holding the list of its widget dicts. */
  class DashboardObject {
    var head: Head
    var widgets: seq<WidgetObject>

    constructor (head: Head, widgets: seq<WidgetObject>)
      ensures this.head == head && this.widgets == widgets
    {
      this.head, this.widgets := head, widgets;
    }

    /** The dict itself and those of its widgets. */
    ghost function Parts(): set<object>
      reads this
    {
      {this} + set w: object | w in widgets
    }

    function Value(): Dashboard
      reads this, widgets
    {
      Dashboard(head, Snapshot(widgets))
    }

    /** `copy.deepcopy`: an equal configuration made of new dicts only. */
    method DeepCopy() returns (copy: DashboardObject)
      ensures fresh(copy) && fresh(copy.widgets) && Distinct(copy.widgets)
      ensures copy.Value() == Value()
    {
      var ws: seq<WidgetObject> := [];
      var i := 0;
      while i < |widgets|
        invariant 0 <= i == |ws| <= |widgets|
        invariant fresh(ws) && Distinct(ws)
        invariant forall k :: 0 <= k < i ==> ws[k].value == widgets[k].value
      {
        var w := new WidgetObject(widgets[i].value);
        ws := ws + [w];
        i := i + 1;
      }
      copy := new DashboardObject(head, ws);
    }
  }

  datatype Note = Invalid(app: string, error: ConfigError) | Duplicate(app: string, name: string)

  class DashboardRegistry {
    var dashboards: map<string, DashboardObject>
    var errors: seq<Note>
    ghost var repr: set<object>  // every dict the registered configurations are made of

    ghost predicate Valid()
      reads this, repr
    {
      forall n :: n in dashboards ==>
        dashboards[n] in repr && forall w :: w in dashboards[n].widgets ==> w in repr
    }

    /** What is registered, as values. */
    ghost function Contents(): (c: map<string, Dashboard>)
      requires Valid()
      reads this, repr
    {
      map n | n in dashboards :: dashboards[n].Value()
    }

    constructor ()
      ensures Valid() && Contents() == map[] && errors == [] && repr == {}
    {
      dashboards, errors, repr := map[], [], {};
    }

    /** First wins: a name already taken keeps its configuration and the second one becomes an error. */
    method Register(name: string, config: DashboardObject, app: string) returns (added: bool)
      requires Valid()
      modifies this
      ensures Valid() && fresh(repr - old(repr)) && old(repr) <= repr
      ensures added <==> name !in old(Contents())
      ensures Contents() == if added then old(Contents())[name := old(config.Value())] else old(Contents())
      ensures errors == if added then old(errors) else old(errors) + [Duplicate(app, name)]
    {
      if name in dashboards {
        errors := errors + [Duplicate(app, name)];
        return false;
      }
      var copy := config.DeepCopy();
      Store(name, copy);
      added := true;
    }

    method Store(name: string, config: DashboardObject)
      requires Valid() && name !in dashboards
      modifies this
      ensures Valid() && repr == old(repr) + config.Parts() && errors == old(errors)
      ensures Contents() == old(Contents())[name := config.Value()]
    {
      dashboards := dashboards[name := config];
      repr := repr + config.Parts();
      assert forall n :: n in old(dashboards) ==> dashboards[n].Value() == old(dashboards[n].Value());
    }

    /** A deep copy of the registered configuration, sharing no dict with the registry. */
    method Get(name: string) returns (config: DashboardObject?)
      requires Valid()
      ensures config != null <==> name in Contents()
      ensures config != null ==>
                fresh(config) && fresh(config.widgets) && Distinct(config.widgets) && config.Value() == Contents()[name]
    {
      if name !in dashboards {
        return null;
      }
      config := dashboards[name].DeepCopy();
    }

    method RecordError(note: Note)
      requires Valid()
      modifies this
      ensures Valid() && repr == old(repr) && Contents() == old(Contents()) && errors == old(errors) + [note]
    {
      errors := errors + [note];
      assert forall n :: n in dashboards ==> dashboards[n].Value() == old(dashboards[n].Value());
    }

    method Clear()
      modifies this
      ensures Valid() && Contents() == map[] && errors == [] && repr == {}
    {
      dashboards, errors, repr := map[], [], {};
    }
  }
}
