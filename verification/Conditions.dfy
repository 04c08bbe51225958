/** Declarative rule conditions: a field-path resolver, ten operators, and all/any trees. */
module Conditions {
  import opened Wrappers

  /** Event data and comparands. `Record` is a live object, read through its attributes; `Code` is anything callable. */
  datatype Value =
    | Null
    | Bool(b: bool)
    | Num(n: int)
    | Str(s: string)
    | List(items: seq<Value>)
    | Dict(entries: map<string, Value>)
    | Record(fields: map<string, Value>)
    | Code

  datatype Operator = Eq | Ne | Ge | Gt | Le | Lt | In | NotIn | IsNull | IsNotNull | Unknown

  /** `Empty` is any falsy tree. A tree with both keys counts as an "all" tree. */
  datatype Tree =
    | Empty
    | All(parts: seq<Tree>)
    | Any(parts: seq<Tree>)
    | Leaf(field: Option<string>, op: Operator, comparand: Value)

  // ---------------------------------------------------------------------------------------------
  // Paths
  // ---------------------------------------------------------------------------------------------

  function Split(path: string): (segments: seq<string>)
    ensures |segments| >= 1
  {
    if path == [] then [""]
    else
      var rest := Split(path[1..]);
      if path[0] == '.' then [""] + rest else [[path[0]] + rest[0]] + rest[1..]
  }

  predicate Hidden(segment: string) {
    segment == "" || segment[0] == '_'
  }

  /** The data attributes Python's integers have; every other built-in attribute is a method. */
  function NumberAttribute(n: int, segment: string): Option<Value> {
    if segment == "real" || segment == "numerator" then Some(Num(n))
    else if segment == "imag" then Some(Num(0))
    else if segment == "denominator" then Some(Num(1))
    else None
  }

  function Member(v: Value, segment: string): Option<Value> {
    match v
    case Dict(m) => if segment in m && m[segment] != Code then Some(m[segment]) else None
    case Record(m) => if segment in m && m[segment] != Code then Some(m[segment]) else None
    case Num(n) => NumberAttribute(n, segment)
    case Bool(b) => NumberAttribute(if b then 1 else 0, segment)
    case _ => None
  }

  /** One path segment: hidden names are refused, callables are never returned. */
  function Get(v: Value, segment: string): Option<Value> {
    if Hidden(segment) then None else Member(v, segment)
  }

  function Resolve(v: Value, segments: seq<string>): Option<Value>
    decreases |segments|
  {
    if segments == [] then Some(v)
    else match Get(v, segments[0])
      case None => None
      case Some(next) => Resolve(next, segments[1..])
  }

  /** The resolver's own loop. */
  method ResolveField(data: Value, path: string) returns (found: Option<Value>)
    ensures found == Resolve(data, Split(path))
  {
    var current := data;
    var segments := Split(path);
    var i := 0;
    while i < |segments|
      invariant 0 <= i <= |segments|
      invariant Resolve(current, segments[i..]) == Resolve(data, segments)
    {
      if Hidden(segments[i]) {
        return None;
      }
      var next := Member(current, segments[i]);
      if next.None? {
        return None;
      }
      current := next.value;
      i := i + 1;
    }
    found := Some(current);
  }

  // ---------------------------------------------------------------------------------------------
  // Operators
  // ---------------------------------------------------------------------------------------------

  /** Equality as Python has it: booleans are the numbers 0 and 1; a live object equals no comparand. */
  predicate Same(a: Value, b: Value) {
    match (a, b)
    case (Null, Null) => true
    case (Bool(x), Bool(y)) => x == y
    case (Bool(x), Num(y)) => (if x then 1 else 0) == y
    case (Num(x), Bool(y)) => x == (if y then 1 else 0)
    case (Num(x), Num(y)) => x == y
    case (Str(x), Str(y)) => x == y
    case (List(x), List(y)) => |x| == |y| && forall i :: 0 <= i < |x| ==> Same(x[i], y[i])
    case (Dict(x), Dict(y)) => x.Keys == y.Keys && forall k :: k in x && k in y ==> Same(x[k], y[k])
    case _ => false
  }

  function AsNumber(v: Value): Option<int> {
    match v
    case Num(n) => Some(n)
    case Bool(b) => Some(if b then 1 else 0)
    case _ => None
  }

  predicate TextLess(a: string, b: string) {
    b != [] && (a == [] || a[0] < b[0] || (a[0] == b[0] && TextLess(a[1..], b[1..])))
  }

  /** The texts agree up to `i`, where `a` ends or has the smaller character. */
  predicate SmallerAt(a: string, b: string, i: nat) {
    i <= |a| && i < |b| && a[..i] == b[..i] && (i < |a| ==> a[i] < b[i])
  }

  lemma SmallerLater(a: string, b: string, i: nat)
    requires a != [] && b != []
    ensures SmallerAt(a, b, 0) <==> a[0] < b[0]
    ensures SmallerAt(a, b, i + 1) <==> a[0] == b[0] && SmallerAt(a[1..], b[1..], i)
  {
    assert a[..0] == b[..0] == [];
    if i < |a| && i < |b| {
      assert a[..i + 1] == [a[0]] + a[1..][..i] && b[..i + 1] == [b[0]] + b[1..][..i];
      assert a[..i + 1][1..] == a[1..][..i] && b[..i + 1][1..] == b[1..][..i];
    }
  }

  /** The first difference decides; a proper prefix comes first. */
  lemma {:induction false} TextLessExactly(a: string, b: string)
    ensures TextLess(a, b) <==> exists i: nat :: SmallerAt(a, b, i)
    decreases |a|
  {
    if a == [] || b == [] {
      assert b != [] ==> SmallerAt(a, b, 0);
    } else {
      TextLessExactly(a[1..], b[1..]);
      SmallerLater(a, b, 0);
      if TextLess(a, b) && a[0] == b[0] {
        var i: nat :| SmallerAt(a[1..], b[1..], i);
        SmallerLater(a, b, i);
      } else if i: nat :| SmallerAt(a, b, i) {
        if i > 0 {
          SmallerLater(a, b, i - 1);
        }
      }
    }
  }

  /** a < b; None where Python raises TypeError. */
  function Less(a: Value, b: Value): Option<bool> {
    if AsNumber(a).Some? && AsNumber(b).Some? then Some(AsNumber(a).value < AsNumber(b).value)
    else if a.Str? && b.Str? then Some(TextLess(a.s, b.s))
    else if a.List? && b.List? then ListLess(a.items, b.items)
    else None
  }

  function ListLess(a: seq<Value>, b: seq<Value>): Option<bool> {
    if b == [] then Some(false)
    else if a == [] then Some(true)
    else if Same(a[0], b[0]) then ListLess(a[1..], b[1..])
    else Less(a[0], b[0])
  }

  predicate Contains(text: string, part: string) {
    part <= text || (text != [] && Contains(text[1..], part))
  }

  /** a in b; None where Python raises TypeError. */
  function Within(a: Value, b: Value): Option<bool> {
    match b
    case List(items) => Some(exists i :: 0 <= i < |items| && Same(a, items[i]))
    case Str(text) => if a.Str? then Some(Contains(text, a.s)) else None
    case Dict(m) => if a.List? || a.Dict? then None else Some(a.Str? && a.s in m)
    case _ => None
  }

  /** The operator table; a TypeError counts as false. */
  predicate Apply(op: Operator, a: Value, b: Value) {
    match op
    case Eq => Same(a, b)
    case Ne => !Same(a, b)
    case Lt => a != Null && b != Null && Less(a, b) == Some(true)
    case Gt => a != Null && b != Null && Less(b, a) == Some(true)
    case Le => a != Null && b != Null && (Less(a, b) == Some(true) || (Less(a, b).Some? && Same(a, b)))
    case Ge => a != Null && b != Null && (Less(b, a) == Some(true) || (Less(b, a).Some? && Same(a, b)))
    case In => b != Null && Within(a, b) == Some(true)
    case NotIn => b == Null || Within(a, b) == Some(false)
    case IsNull => a == Null
    case IsNotNull => a != Null
    case Unknown => false
  }

  predicate EvaluateLeaf(field: Option<string>, op: Operator, comparand: Value, data: Value) {
    if field.None? || op == Unknown then false
    else match Resolve(data, Split(field.value))
      case None => op == IsNull
      case Some(left) => Apply(op, left, comparand)
  }

  predicate Evaluate(t: Tree, data: Value) {
    match t
    case Empty => true
    case All(parts) => forall p :: p in parts ==> Evaluate(p, data)
    case Any(parts) => exists p :: p in parts && Evaluate(p, data)
    case Leaf(field, op, comparand) => EvaluateLeaf(field, op, comparand, data)
  }

  // ---------------------------------------------------------------------------------------------
  // What the parts mean
  // ---------------------------------------------------------------------------------------------

  function Join(segments: seq<string>): string
    requires segments != []
  {
    if |segments| == 1 then segments[0] else segments[0] + "." + Join(segments[1..])
  }

  /** Splitting cuts at every dot and nowhere else. */
  lemma {:induction false} SplitJoins(path: string)
    ensures Join(Split(path)) == path
    ensures forall i :: 0 <= i < |Split(path)| ==> '.' !in Split(path)[i]
    decreases |path|
  {
    if path != [] {
      SplitJoins(path[1..]);
      var rest := Split(path[1..]);
      if path[0] == '.' {
        assert ([""] + rest)[1..] == rest;
        assert Join([""] + rest) == [] + "." + Join(rest);
      } else {
        var all := [[path[0]] + rest[0]] + rest[1..];
        assert all[1..] == rest[1..];
        if |rest| > 1 {
          assert Join(all) == [path[0]] + rest[0] + "." + Join(rest[1..]) == [path[0]] + Join(rest);
        }
      }
      assert path == [path[0]] + path[1..];
    }
  }

  /** A dict or live object gives the value under a public name, unless it is callable; nothing else has names. */
  lemma PathStep(v: Value, segment: string, rest: seq<string>)
    requires !v.Num? && !v.Bool?
    ensures Resolve(v, []) == Some(v)
    ensures var names := if v.Dict? then v.entries else if v.Record? then v.fields else map[];
            var found := segment in names && names[segment] != Code && segment != "" && segment[0] != '_';
      Resolve(v, [segment] + rest) == if found then Resolve(names[segment], rest) else None
  {
    assert ([segment] + rest)[1..] == rest;
  }

  /** A number has its own two parts and, as a fraction, its own two terms; a boolean is the number it counts as. */
  lemma NumberStep(v: Value, n: int, segment: string, rest: seq<string>)
    requires v == Num(n) || (v == Bool(true) && n == 1) || (v == Bool(false) && n == 0)
    ensures Resolve(v, [segment] + rest) ==
              if segment == "real" || segment == "numerator" then Resolve(Num(n), rest)
              else if segment == "imag" then Resolve(Num(0), rest)
              else if segment == "denominator" then Resolve(Num(1), rest)
              else None
  {
    assert ([segment] + rest)[1..] == rest;
  }

  /** "all" over the empty list, over one part, and over a list put together from two. */
  lemma AllLaws(t: Tree, xs: seq<Tree>, ys: seq<Tree>, data: Value)
    ensures Evaluate(Empty, data) && Evaluate(All([]), data)
    ensures Evaluate(All([t]), data) <==> Evaluate(t, data)
    ensures Evaluate(All(xs + ys), data) <==> Evaluate(All(xs), data) && Evaluate(All(ys), data)
  {
    assert t in [t];
    if Evaluate(All(xs + ys), data) {
      assert forall p :: p in xs || p in ys ==> p in xs + ys;
    }
  }

  lemma AnyLaws(t: Tree, xs: seq<Tree>, ys: seq<Tree>, data: Value)
    ensures !Evaluate(Any([]), data)
    ensures Evaluate(Any([t]), data) <==> Evaluate(t, data)
    ensures Evaluate(Any(xs + ys), data) <==> Evaluate(Any(xs), data) || Evaluate(Any(ys), data)
  {
    assert t in [t];
    if p :| (p in xs || p in ys) && Evaluate(p, data) {
      assert p in xs + ys;
    }
  }

  /** What is missing is null and nothing else. */
  lemma MissingLeaf(field: string, op: Operator, b: Value, data: Value)
    requires Resolve(data, Split(field)).None?
    ensures Evaluate(Leaf(Some(field), op, b), data) <==> op == IsNull
  {
  }

  /** What is there is null or not, and equal or not; an unknown operator or no field at all never holds. */
  lemma FoundLeaf(field: string, v: Value, op: Operator, b: Value, data: Value)
    requires Resolve(data, Split(field)) == Some(v)
    ensures Evaluate(Leaf(Some(field), op, b), data) <==> Apply(op, v, b)
    ensures Apply(IsNull, v, b) <==> v == Null
    ensures Apply(IsNotNull, v, b) <==> v != Null
    ensures Apply(Ne, v, b) <==> !Apply(Eq, v, b)
    ensures !Apply(Unknown, v, b) && !Evaluate(Leaf(None, op, b), data)
  {
  }

  /** Null is not ordered, contains nothing, and so everything is outside it. */
  lemma NullLaws(v: Value, op: Operator)
    ensures op in {Lt, Le, Gt, Ge} ==> !Apply(op, Null, v) && !Apply(op, v, Null)
    ensures Apply(Eq, v, Null) <==> v == Null
    ensures !Apply(In, v, Null) && Apply(NotIn, v, Null)
  {
  }

  /** A number, booleans counting as 0 and 1. */
  predicate IsNumber(v: Value, n: int) {
    v == Num(n) || (v == Bool(true) && n == 1) || (v == Bool(false) && n == 0)
  }

  lemma NumbersCompare(a: Value, b: Value, x: int, y: int)
    requires IsNumber(a, x) && IsNumber(b, y)
    ensures Apply(Eq, a, b) <==> x == y
    ensures Apply(Lt, a, b) <==> x < y
    ensures Apply(Le, a, b) <==> x <= y
    ensures Apply(Gt, a, b) <==> x > y
    ensures Apply(Ge, a, b) <==> x >= y
  {
  }

  lemma TextsCompare(x: string, y: string)
    ensures Apply(Eq, Str(x), Str(y)) <==> x == y
    ensures Apply(Lt, Str(x), Str(y)) <==> exists i: nat :: SmallerAt(x, y, i)
    ensures Apply(Gt, Str(x), Str(y)) <==> exists i: nat :: SmallerAt(y, x, i)
    ensures Apply(Le, Str(x), Str(y)) <==> x == y || exists i: nat :: SmallerAt(x, y, i)
    ensures Apply(Ge, Str(x), Str(y)) <==> x == y || exists i: nat :: SmallerAt(y, x, i)
  {
    TextLessExactly(x, y);
    TextLessExactly(y, x);
  }

  /** Lists compare at their first difference; a proper prefix comes first. */
  lemma {:induction false} ListsCompare(a: seq<Value>, b: seq<Value>, i: nat)
    requires i <= |a| && i <= |b| && forall j :: 0 <= j < i ==> Same(a[j], b[j])
    requires i < |a| && i < |b| ==> !Same(a[i], b[i])
    ensures Less(List(a), List(b)) ==
              if i == |b| then Some(false) else if i == |a| then Some(true) else Less(a[i], b[i])
    decreases i
  {
    if i > 0 {
      ListsCompare(a[1..], b[1..], i - 1);
    }
  }

  /** Contains no live object and nothing callable, at any depth. */
  predicate Plain(v: Value) {
    match v
    case List(items) => forall i :: 0 <= i < |items| ==> Plain(items[i])
    case Dict(m) => forall k :: k in m ==> Plain(m[k])
    case Record(_) => false
    case Code => false
    case _ => true
  }

  lemma {:induction false} SameIsReflexive(v: Value)
    requires Plain(v)
    ensures Same(v, v)
  {
    match v
    case List(items) =>
      forall i | 0 <= i < |items|
        ensures Same(items[i], items[i])
      {
        SameIsReflexive(items[i]);
      }
    case Dict(m) =>
      forall k | k in m
        ensures Same(m[k], m[k])
      {
        SameIsReflexive(m[k]);
      }
    case _ =>
  }

  lemma {:induction false} SameIsSymmetric(a: Value, b: Value)
    requires Same(a, b)
    ensures Same(b, a)
  {
    if a.List? {
      forall i | 0 <= i < |a.items|
        ensures Same(b.items[i], a.items[i])
      {
        SameIsSymmetric(a.items[i], b.items[i]);
      }
    } else if a.Dict? {
      forall k | k in a.entries
        ensures Same(b.entries[k], a.entries[k])
      {
        SameIsSymmetric(a.entries[k], b.entries[k]);
      }
    }
  }

  /** Equal collections have the same size and equal parts in the same places. */
  lemma SameParts(x: seq<Value>, y: seq<Value>, m: map<string, Value>, n: map<string, Value>)
    ensures Apply(Eq, List(x), List(y)) <==> |x| == |y| && forall i :: 0 <= i < |x| ==> Same(x[i], y[i])
    ensures Apply(Eq, Dict(m), Dict(n)) <==> m.Keys == n.Keys && forall k :: k in m ==> Same(m[k], n[k])
  {
  }

  /** Values of different kinds are neither equal nor ordered. */
  lemma KindsDoNotMix(a: Value, b: Value, op: Operator)
    requires (a.Str? && (b.Num? || b.Bool? || b.List? || b.Dict?)) || (a.List? && (b.Num? || b.Bool? || b.Dict?))
    ensures !Apply(Eq, a, b) && !Apply(Eq, b, a)
    ensures op in {Lt, Le, Gt, Ge} ==> !Apply(op, a, b) && !Apply(op, b, a)
  {
  }

  /** `part` stands in the text from `i` on. */
  predicate PartAt(text: string, part: string, i: nat) {
    i <= |text| && part <= text[i..]
  }

  lemma {:induction false} ContainsExactly(text: string, part: string)
    ensures Contains(text, part) <==> exists i: nat :: PartAt(text, part, i)
    decreases |text|
  {
    if part <= text {
      assert text[0..] == text && PartAt(text, part, 0);
    } else if text != [] {
      ContainsExactly(text[1..], part);
      assert text[0..] == text;
      if i: nat :| PartAt(text, part, i) {
        assert text[1..][i - 1..] == text[i..];
        assert PartAt(text[1..], part, i - 1);
      }
      if i: nat :| PartAt(text[1..], part, i) {
        assert text[1..][i..] == text[i + 1..];
        assert PartAt(text, part, i + 1);
      }
    }
  }

  /** In a list: equal to one of its elements. */
  lemma ListMembership(v: Value, items: seq<Value>)
    ensures Apply(In, v, List(items)) <==> exists i :: 0 <= i < |items| && Same(v, items[i])
    ensures Apply(NotIn, v, List(items)) <==> !Apply(In, v, List(items))
  {
  }

  /** In a text: a part of it. In a dict: one of its names. */
  lemma TextMembership(text: string, part: string, entries: map<string, Value>)
    ensures Apply(In, Str(part), Str(text)) <==> exists i: nat :: PartAt(text, part, i)
    ensures Apply(NotIn, Str(part), Str(text)) <==> !Apply(In, Str(part), Str(text))
    ensures Apply(In, Str(part), Dict(entries)) <==> part in entries
    ensures Apply(NotIn, Str(part), Dict(entries)) <==> part !in entries
  {
    ContainsExactly(text, part);
  }

  // ---------------------------------------------------------------------------------------------
  // Fail closed
  // ---------------------------------------------------------------------------------------------

  /** No leaf asks for absence. */
  predicate NoNullTest(t: Tree) {
    match t
    case Empty => true
    case All(parts) => forall p :: p in parts ==> NoNullTest(p)
    case Any(parts) => forall p :: p in parts ==> NoNullTest(p)
    case Leaf(_, op, _) => op != IsNull
  }

  /** Every path the tree reads resolves in `more` to what it resolves to in `less`, unless it is missing there. */
  predicate Extends(t: Tree, less: Value, more: Value) {
    match t
    case Empty => true
    case All(parts) => forall p :: p in parts ==> Extends(p, less, more)
    case Any(parts) => forall p :: p in parts ==> Extends(p, less, more)
    case Leaf(field, _, _) =>
      field.Some? ==>
        var before := Resolve(less, Split(field.value));
        before.Some? ==> Resolve(more, Split(field.value)) == before
  }

  /** Missing data can only turn a result off: resolving more paths never loses a match. */
  lemma {:induction false} MoreDataNeverLosesAMatch(t: Tree, less: Value, more: Value)
    requires NoNullTest(t) && Extends(t, less, more) && Evaluate(t, less)
    ensures Evaluate(t, more)
  {
    match t
    case All(parts) =>
      forall p | p in parts
        ensures Evaluate(p, more)
      {
        MoreDataNeverLosesAMatch(p, less, more);
      }
    case Any(parts) =>
      var p :| p in parts && Evaluate(p, less);
      MoreDataNeverLosesAMatch(p, less, more);
    case _ =>
  }

  // ---------------------------------------------------------------------------------------------
  // Private names cannot be read
  // ---------------------------------------------------------------------------------------------

  predicate Private(segment: string) {
    segment != "" && segment[0] == '_'
  }

  /** The data without any key that starts with an underscore, at any depth. */
  function Public(v: Value): Value {
    match v
    case List(items) => List(seq(|items|, i requires 0 <= i < |items| => Public(items[i])))
    case Dict(m) => Dict(map k | k in m && !Private(k) :: Public(m[k]))
    case Record(m) => Record(map k | k in m && !Private(k) :: Public(m[k]))
    case _ => v
  }

  predicate Scalar(v: Value) {
    v.Null? || v.Bool? || v.Num? || v.Str?
  }

  /** A scalar, or a list of scalars. */
  predicate Flat(v: Value) {
    Scalar(v) || (v.List? && forall i :: 0 <= i < |v.items| ==> Scalar(v.items[i]))
  }

  predicate FlatComparands(t: Tree) {
    match t
    case Empty => true
    case All(parts) => forall p :: p in parts ==> FlatComparands(p)
    case Any(parts) => forall p :: p in parts ==> FlatComparands(p)
    case Leaf(_, _, comparand) => Flat(comparand)
  }

  lemma {:induction false} PublicResolves(v: Value, segments: seq<string>)
    ensures Resolve(Public(v), segments).Some? <==> Resolve(v, segments).Some?
    ensures Resolve(v, segments).Some? ==> Resolve(Public(v), segments).value == Public(Resolve(v, segments).value)
    decreases |segments|
  {
    if segments != [] {
      match Get(v, segments[0])
      case None =>
      case Some(next) => PublicResolves(next, segments[1..]);
    }
  }

  lemma {:induction false} PublicScalar(a: Value, b: Value)
    requires Scalar(b)
    ensures Same(Public(a), b) <==> Same(a, b)
    ensures Same(b, Public(a)) <==> Same(b, a)
  {
  }

  lemma {:induction false} PublicSame(a: Value, b: Value)
    requires Flat(b)
    ensures Same(Public(a), b) <==> Same(a, b)
    ensures Same(b, Public(a)) <==> Same(b, a)
  {
    if Scalar(b) {
      PublicScalar(a, b);
    } else if a.List? {
      forall i | 0 <= i < |a.items| && i < |b.items|
        ensures Same(Public(a.items[i]), b.items[i]) <==> Same(a.items[i], b.items[i])
        ensures Same(b.items[i], Public(a.items[i])) <==> Same(b.items[i], a.items[i])
      {
        PublicScalar(a.items[i], b.items[i]);
      }
    }
  }

  lemma {:induction false} PublicListLess(a: seq<Value>, b: seq<Value>)
    requires forall i :: 0 <= i < |b| ==> Scalar(b[i])
    ensures var p := seq(|a|, i requires 0 <= i < |a| => Public(a[i]));
            ListLess(p, b) == ListLess(a, b) && ListLess(b, p) == ListLess(b, a)
  {
    var p := seq(|a|, i requires 0 <= i < |a| => Public(a[i]));
    if a != [] && b != [] {
      PublicSame(a[0], b[0]);
      assert p[1..] == seq(|a[1..]|, i requires 0 <= i < |a[1..]| => Public(a[1..][i]));
      PublicListLess(a[1..], b[1..]);
    }
  }

  lemma {:induction false} PublicLess(a: Value, b: Value)
    requires Flat(b)
    ensures Less(Public(a), b) == Less(a, b) && Less(b, Public(a)) == Less(b, a)
  {
    if a.List? && b.List? {
      PublicListLess(a.items, b.items);
    }
  }

  lemma {:induction false} PublicWithin(a: Value, b: Value)
    requires Flat(b)
    ensures Within(Public(a), b) == Within(a, b)
  {
    if b.List? {
      forall i | 0 <= i < |b.items|
        ensures Same(Public(a), b.items[i]) <==> Same(a, b.items[i])
      {
        PublicScalar(a, b.items[i]);
      }
    }
  }

  lemma {:induction false} PublicApplies(op: Operator, a: Value, b: Value)
    requires Flat(b)
    ensures Apply(op, Public(a), b) == Apply(op, a, b)
  {
    PublicSame(a, b);
    PublicLess(a, b);
    PublicWithin(a, b);
    assert Public(a) == Null <==> a == Null;
  }

  /** Deleting every private key, at any depth, changes the result of no tree with flat comparands. */
  lemma {:induction false} PrivateKeysNeverMatter(t: Tree, data: Value)
    requires FlatComparands(t)
    ensures Evaluate(t, Public(data)) == Evaluate(t, data)
  {
    match t
    case Empty =>
    case All(parts) =>
      forall p | p in parts
        ensures Evaluate(p, Public(data)) == Evaluate(p, data)
      {
        PrivateKeysNeverMatter(p, data);
      }
    case Any(parts) =>
      forall p | p in parts
        ensures Evaluate(p, Public(data)) == Evaluate(p, data)
      {
        PrivateKeysNeverMatter(p, data);
      }
    case Leaf(field, op, comparand) =>
      if field.Some? {
        var segments := Split(field.value);
        PublicResolves(data, segments);
        if Resolve(data, segments).Some? {
          PublicApplies(op, Resolve(data, segments).value, comparand);
        }
      }
  }
}
