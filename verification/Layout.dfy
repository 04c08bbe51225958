/** Layout validation: at every breakpoint the widgets fill rows of exactly twelve columns. */
module Layout {
  import opened Wrappers

  const GRID_COLUMNS := 12
  const BREAKPOINTS := ["xs", "sm", "md", "lg", "xl"]

  datatype ColValue = Span(columns: int) | NotAnInteger

  /** The raw `cols` of a widget: missing, of another type, or a dict. */
  datatype Cols = NoCols | NotADict | Cols(spans: map<string, ColValue>)

  datatype Placed = Placed(name: string, order: int, cols: Cols)

  datatype LayoutError =
    | ColsNotADict(name: string)
    | InvalidCols(name: string)
    | RowNotFull(breakpoint: string, row: seq<string>, total: int)

  // ---------------------------------------------------------------------------------------------
  // Stable ordering
  // ---------------------------------------------------------------------------------------------

  function InsertInOrder(w: Placed, sorted: seq<Placed>): seq<Placed> {
    if sorted == [] || w.order <= sorted[0].order then [w] + sorted
    else [sorted[0]] + InsertInOrder(w, sorted[1..])
  }

  /** `sorted(widgets, key=order)`. */
  function Ordered(ws: seq<Placed>): seq<Placed> {
    if ws == [] then [] else InsertInOrder(ws[0], Ordered(ws[1..]))
  }

  function IfOrder(w: Placed, order: int): seq<Placed> {
    if w.order == order then [w] else []
  }

  function WithOrder(ws: seq<Placed>, order: int): seq<Placed> {
    if ws == [] then [] else IfOrder(ws[0], order) + WithOrder(ws[1..], order)
  }

  predicate InOrder(ws: seq<Placed>) {
    forall i, j :: 0 <= i < j < |ws| ==> ws[i].order <= ws[j].order
  }

  lemma {:induction false} InsertElements(w: Placed, sorted: seq<Placed>)
    ensures multiset(InsertInOrder(w, sorted)) == multiset{w} + multiset(sorted)
    decreases |sorted|
  {
    if sorted != [] && w.order > sorted[0].order {
      InsertElements(w, sorted[1..]);
      assert sorted == [sorted[0]] + sorted[1..];
    }
  }

  lemma SortedCons(first: Placed, rest: seq<Placed>)
    requires InOrder(rest) && forall x :: x in rest ==> first.order <= x.order
    ensures InOrder([first] + rest)
  {
  }

  lemma {:induction false} InsertSorted(w: Placed, sorted: seq<Placed>)
    requires InOrder(sorted)
    ensures InOrder(InsertInOrder(w, sorted))
    decreases |sorted|
  {
    if sorted != [] && w.order > sorted[0].order {
      var rest := InsertInOrder(w, sorted[1..]);
      InsertSorted(w, sorted[1..]);
      InsertElements(w, sorted[1..]);
      forall x | x in rest
        ensures sorted[0].order <= x.order
      {
        assert x in multiset(rest);
        assert x == w || x in sorted[1..];
      }
      SortedCons(sorted[0], rest);
    }
  }

  lemma WithOrderCons(first: Placed, rest: seq<Placed>, order: int)
    ensures WithOrder([first] + rest, order) == IfOrder(first, order) + WithOrder(rest, order)
  {
    assert ([first] + rest)[1..] == rest;
  }

  lemma {:induction false} InsertStable(w: Placed, sorted: seq<Placed>, order: int)
    requires InOrder(sorted)
    ensures WithOrder(InsertInOrder(w, sorted), order) == IfOrder(w, order) + WithOrder(sorted, order)
    decreases |sorted|
  {
    if sorted == [] || w.order <= sorted[0].order {
      WithOrderCons(w, sorted, order);
    } else {
      InsertStable(w, sorted[1..], order);
      WithOrderCons(sorted[0], InsertInOrder(w, sorted[1..]), order);
      assert IfOrder(w, order) == [] || IfOrder(sorted[0], order) == [];
    }
  }

  lemma {:induction false} OrderedElements(ws: seq<Placed>)
    ensures multiset(Ordered(ws)) == multiset(ws)
    decreases |ws|
  {
    if ws != [] {
      OrderedElements(ws[1..]);
      InsertElements(ws[0], Ordered(ws[1..]));
      assert ws == [ws[0]] + ws[1..];
    }
  }

  lemma {:induction false} OrderedSorted(ws: seq<Placed>)
    ensures InOrder(Ordered(ws))
    decreases |ws|
  {
    if ws != [] {
      OrderedSorted(ws[1..]);
      InsertSorted(ws[0], Ordered(ws[1..]));
    }
  }

  lemma {:induction false} OrderedStable(ws: seq<Placed>, order: int)
    ensures WithOrder(Ordered(ws), order) == WithOrder(ws, order)
    decreases |ws|
  {
    if ws != [] {
      OrderedStable(ws[1..], order);
      OrderedSorted(ws[1..]);
      InsertStable(ws[0], Ordered(ws[1..]), order);
    }
  }

  /** A sorted permutation that keeps equal orders as declared. */
  lemma OrderedIsStableSort(ws: seq<Placed>)
    ensures InOrder(Ordered(ws))
    ensures multiset(Ordered(ws)) == multiset(ws)
    ensures forall order :: WithOrder(Ordered(ws), order) == WithOrder(ws, order)
  {
    OrderedSorted(ws);
    OrderedElements(ws);
    forall order
      ensures WithOrder(Ordered(ws), order) == WithOrder(ws, order)
    {
      OrderedStable(ws, order);
    }
  }

  // ---------------------------------------------------------------------------------------------
  // Spans
  // ---------------------------------------------------------------------------------------------

  predicate ValidEntry(breakpoint: string, v: ColValue) {
    breakpoint in BREAKPOINTS && v.Span? && 1 <= v.columns <= GRID_COLUMNS
  }

  predicate ValidCols(cols: Cols) {
    match cols
    case NoCols => true
    case NotADict => false
    case Cols(m) => forall b :: b in m ==> ValidEntry(b, m[b])
  }

  function Columns(cols: Cols): (m: map<string, int>)
    requires ValidCols(cols)
  {
    if cols.Cols? then map b | b in cols.spans :: cols.spans[b].columns else map[]
  }

  /** The nearest declared breakpoint at or below `b`, else a full row. */
  function NearestDeclared(m: map<string, int>, b: nat): int
    requires b < |BREAKPOINTS|
  {
    if BREAKPOINTS[b] in m then m[BREAKPOINTS[b]]
    else if b == 0 then GRID_COLUMNS
    else NearestDeclared(m, b - 1)
  }

  /** What a widget takes at a breakpoint: xs is always full, no declaration at all means 12 then 6. */
  function SpanAt(m: map<string, int>, b: nat): int
    requires b < |BREAKPOINTS|
  {
    if m == map[] then (if b <= 1 then GRID_COLUMNS else 6)
    else if b == 0 then GRID_COLUMNS
    else NearestDeclared(m, b)
  }

  /** `j` is the nearest breakpoint at or below `b` that is declared. */
  ghost predicate NearestAt(m: map<string, int>, b: nat, j: nat)
    requires b < |BREAKPOINTS|
  {
    j <= b && BREAKPOINTS[j] in m && forall i :: j < i <= b ==> BREAKPOINTS[i] !in m
  }

  lemma {:induction false} NearestExactly(m: map<string, int>, b: nat)
    requires b < |BREAKPOINTS|
    ensures forall j: nat :: NearestAt(m, b, j) ==> NearestDeclared(m, b) == m[BREAKPOINTS[j]]
    ensures (forall i :: 0 <= i <= b ==> BREAKPOINTS[i] !in m) ==> NearestDeclared(m, b) == 12
  {
    if b > 0 && BREAKPOINTS[b] !in m {
      NearestExactly(m, b - 1);
      forall j: nat | NearestAt(m, b, j)
        ensures NearestAt(m, b - 1, j)
      {
      }
    }
  }

  /**
    `effective_span`, with its loop over the breakpoints above sm. Twelve columns at xs; without any declaration
    twelve at sm and six above; otherwise what the nearest breakpoint at or below declares, and twelve if none does.
   */
  method EffectiveSpan(m: map<string, int>, b: nat) returns (span: int)
    requires b < |BREAKPOINTS|
    ensures span == SpanAt(m, b)
    ensures b == 0 ==> span == 12
    ensures m == map[] ==> span == [12, 12, 6, 6, 6][b]
    ensures b > 0 ==> forall j: nat :: NearestAt(m, b, j) ==> span == m[BREAKPOINTS[j]]
    ensures b > 0 && m != map[] && (forall i :: 0 <= i <= b ==> BREAKPOINTS[i] !in m) ==> span == 12
  {
    NearestExactly(m, b);
    if m == map[] {
      return if b == 0 || b == 1 then 12 else 6;
    }
    if b == 0 {
      return 12;
    }
    span := if "sm" !in m then (if "xs" in m then m["xs"] else 12) else m["sm"];
    var i := 2;
    while i <= b
      invariant 2 <= i <= b + 1 || (b == 1 && i == 2)
      invariant span == NearestDeclared(m, i - 1)
    {
      if BREAKPOINTS[i] in m {
        span := m[BREAKPOINTS[i]];
      }
      i := i + 1;
    }
  }

  lemma {:induction false} NearestInRange(m: map<string, int>, b: nat)
    requires b < |BREAKPOINTS| && forall k :: k in m ==> 1 <= m[k] <= GRID_COLUMNS
    ensures 1 <= NearestDeclared(m, b) <= GRID_COLUMNS
  {
    if b > 0 {
      NearestInRange(m, b - 1);
    }
  }

  lemma SpanInRange(m: map<string, int>, b: nat)
    requires b < |BREAKPOINTS| && forall k :: k in m ==> 1 <= m[k] <= GRID_COLUMNS
    ensures 1 <= SpanAt(m, b) <= GRID_COLUMNS
  {
    NearestInRange(m, b);
  }

  function Spans(ws: seq<Placed>, b: nat): seq<int>
    requires b < |BREAKPOINTS| && forall i :: 0 <= i < |ws| ==> ValidCols(ws[i].cols)
  {
    seq(|ws|, i requires 0 <= i < |ws| => SpanAt(Columns(ws[i].cols), b))
  }

  // ---------------------------------------------------------------------------------------------
  // Rows of twelve
  // ---------------------------------------------------------------------------------------------

  function Sum(s: seq<int>): int {
    if s == [] then 0 else s[0] + Sum(s[1..])
  }

  function Flatten(rows: seq<seq<int>>): seq<int> {
    if rows == [] then [] else rows[0] + Flatten(rows[1..])
  }

  predicate FullRows(rows: seq<seq<int>>) {
    forall i :: 0 <= i < |rows| ==> Sum(rows[i]) == GRID_COLUMNS
  }

  /** The spans can be cut into consecutive rows, each summing to exactly twelve. */
  ghost predicate Tiles(spans: seq<int>) {
    exists rows :: Flatten(rows) == spans && FullRows(rows)
  }

  predicate InRange(spans: seq<int>) {
    forall i :: 0 <= i < |spans| ==> 1 <= spans[i] <= GRID_COLUMNS
  }

  /** What the greedy packer accepts, starting with `total` columns already in the current row. */
  predicate Packs(spans: seq<int>, total: int) {
    if spans == [] then total == 0
    else if total + spans[0] > GRID_COLUMNS then false
    else Packs(spans[1..], if total + spans[0] == GRID_COLUMNS then 0 else total + spans[0])
  }

  /** The first `n` spans complete the current row, and the rest can be tiled. */
  ghost predicate CompletedAt(spans: seq<int>, total: int, n: nat) {
    n <= |spans| && total + Sum(spans[..n]) == GRID_COLUMNS && Tiles(spans[n..])
  }

  /** Some prefix of at least `least` spans completes the current row. */
  ghost predicate CanComplete(spans: seq<int>, total: int, least: nat) {
    exists n: nat :: n >= least && CompletedAt(spans, total, n)
  }

  lemma {:induction false} SumPositive(s: seq<int>)
    requires InRange(s)
    ensures Sum(s) >= |s|
  {
    if s != [] {
      SumPositive(s[1..]);
    }
  }

  lemma SumPrefix(s: seq<int>, n: nat)
    requires 1 <= n <= |s|
    ensures Sum(s[..n]) == s[0] + Sum(s[1..][..n - 1])
    ensures s[n..] == s[1..][n - 1..]
  {
    assert s[..n][1..] == s[1..][..n - 1];
  }

  /** A tiling of a non-empty sequence starts with a non-empty full row. */
  lemma TilesStart(spans: seq<int>)
    requires spans != [] && InRange(spans)
    ensures Tiles(spans) <==> CanComplete(spans, 0, 1)
  {
    if Tiles(spans) {
      var rows :| Flatten(rows) == spans && FullRows(rows);
      var n := |rows[0]|;
      assert spans[..n] == rows[0] && spans[n..] == Flatten(rows[1..]);
      assert FullRows(rows[1..]);
      assert CompletedAt(spans, 0, n);
    }
    if n: nat :| n >= 1 && CompletedAt(spans, 0, n) {
      var rest :| Flatten(rest) == spans[n..] && FullRows(rest);
      var rows := [spans[..n]] + rest;
      assert rows[1..] == rest;
      assert Flatten(rows) == spans[..n] + spans[n..] == spans;
    }
  }

  lemma EmptyTiles()
    ensures Tiles([])
  {
    assert Flatten([]) == [] && FullRows([]);
  }

  /** Greedy packing loses nothing: it accepts exactly when some cutting exists. */
  lemma {:induction false} PacksExactly(spans: seq<int>, total: int)
    requires InRange(spans) && 0 <= total < GRID_COLUMNS
    ensures total == 0 ==> (Packs(spans, 0) <==> Tiles(spans))
    ensures total > 0 ==> (Packs(spans, total) <==> CanComplete(spans, total, 0))
    decreases |spans|
  {
    EmptyTiles();
    if spans == [] {
      return;
    }
    var rest := spans[1..];
    var next := total + spans[0];
    if next < GRID_COLUMNS {
      PacksExactly(rest, next);
    } else if next == GRID_COLUMNS {
      PacksExactly(rest, 0);
    }
    PackOne(spans, total);
    if total == 0 {
      TilesStart(spans);
    }
  }

  /** One greedy step, on the declarative side. */
  lemma PackOne(spans: seq<int>, total: int)
    requires spans != [] && InRange(spans) && 0 <= total < GRID_COLUMNS
    ensures var next := total + spans[0];
            var completed := CanComplete(spans, total, 1);
      && (next > GRID_COLUMNS ==> !completed)
      && (next == GRID_COLUMNS ==> (completed <==> Tiles(spans[1..])))
      && (next < GRID_COLUMNS ==> (completed <==> CanComplete(spans[1..], next, 0)))
      && (total > 0 ==> (completed <==> CanComplete(spans, total, 0)))
  {
    var rest := spans[1..];
    var next := total + spans[0];
    forall n: nat | 1 <= n <= |spans|
      ensures CompletedAt(spans, total, n) <==> CompletedAt(rest, next, n - 1)
    {
      SumPrefix(spans, n);
    }
    forall n: nat | n <= |rest|
      ensures CompletedAt(rest, next, n) <==> CompletedAt(spans, total, n + 1)
      ensures Sum(rest[..n]) >= n
    {
      SumPrefix(spans, n + 1);
      SumPositive(rest[..n]);
    }
    assert rest[..0] == [] && rest[0..] == rest;
    assert CompletedAt(rest, next, 0) <==> next == GRID_COLUMNS && Tiles(rest);
    assert spans[..0] == [];
    if n: nat :| n >= 1 && CompletedAt(spans, total, n) {
      assert CompletedAt(rest, next, n - 1);
    }
    if n: nat :| CompletedAt(rest, next, n) {
      assert CompletedAt(spans, total, n + 1);
    }
  }

  // ---------------------------------------------------------------------------------------------
  // The validator's loops
  // ---------------------------------------------------------------------------------------------

  predicate AllColsValid(ws: seq<Placed>) {
    forall i :: 0 <= i < |ws| ==> ValidCols(ws[i].cols)
  }

  function Names(ws: seq<Placed>): seq<string> {
    seq(|ws|, i requires 0 <= i < |ws| => ws[i].name)
  }

  /** `row` lists the names of the widgets from `i` to `j`. */
  predicate NamesOf(ordered: seq<Placed>, i: nat, j: nat, row: seq<string>) {
    i <= j <= |ordered| && row == Names(ordered)[i..j]
  }

  /** The reported row: consecutive widgets after complete rows, not full, and not to be filled by the next one. */
  ghost predicate ShortRow(ordered: seq<Placed>, b: nat, row: seq<string>, total: int)
    requires b < |BREAKPOINTS| && AllColsValid(ordered)
  {
    exists i, j :: 0 <= i < j <= |ordered| && IsShortRow(ordered, b, row, total, i, j)
  }

  ghost predicate IsShortRow(ordered: seq<Placed>, b: nat, row: seq<string>, total: int, i: nat, j: nat)
    requires b < |BREAKPOINTS| && AllColsValid(ordered) && i < j <= |ordered|
  {
    var spans := Spans(ordered, b);
    && NamesOf(ordered, i, j, row)
    && total == Sum(spans[i..j])
    && 0 < total < GRID_COLUMNS
    && Tiles(spans[..i])
    && (j < |ordered| ==> total + spans[j] > GRID_COLUMNS)
  }

  lemma {:induction false} SumAppend(s: seq<int>, x: int)
    ensures Sum(s + [x]) == Sum(s) + x
    decreases |s|
  {
    if s == [] {
      assert s + [x] == [x];
    } else {
      assert (s + [x])[1..] == s[1..] + [x];
      SumAppend(s[1..], x);
    }
  }

  lemma {:induction false} FlattenAppend(rows: seq<seq<int>>, row: seq<int>)
    ensures Flatten(rows + [row]) == Flatten(rows) + row
    decreases |rows|
  {
    if rows == [] {
      assert rows + [row] == [row];
      assert [row][1..] == [];
    } else {
      assert (rows + [row])[1..] == rows[1..] + [row];
      FlattenAppend(rows[1..], row);
    }
  }

  lemma TilesAppend(spans: seq<int>, row: seq<int>)
    requires Tiles(spans) && Sum(row) == GRID_COLUMNS
    ensures Tiles(spans + row)
  {
    var rows :| Flatten(rows) == spans && FullRows(rows);
    FlattenAppend(rows, row);
    assert FullRows(rows + [row]);
  }

  /** The spans since the last complete row add up to `total`; what is left packs iff everything tiles. */
  ghost predicate Packing(spans: seq<int>, start: nat, j: nat, total: int) {
    && start <= j <= |spans|
    && total == Sum(spans[start..j])
    && 0 <= total < GRID_COLUMNS && (total == 0 <==> start == j)
    && Tiles(spans[..start])
    && (Packs(spans[j..], total) <==> Tiles(spans))
  }

  lemma PackingStep(spans: seq<int>, start: nat, j: nat, total: int)
    requires InRange(spans) && Packing(spans, start, j, total)
    requires j < |spans| && total + spans[j] <= GRID_COLUMNS
    ensures if total + spans[j] == GRID_COLUMNS then Packing(spans, j + 1, j + 1, 0)
            else Packing(spans, start, j + 1, total + spans[j])
  {
    assert spans[j..][0] == spans[j] && spans[j..][1..] == spans[j + 1..];
    assert spans[start..j + 1] == spans[start..j] + [spans[j]];
    SumAppend(spans[start..j], spans[j]);
    if total + spans[j] == GRID_COLUMNS {
      TilesAppend(spans[..start], spans[start..j + 1]);
      assert spans[..j + 1] == spans[..start] + spans[start..j + 1];
      assert spans[j + 1..j + 1] == [];
    }
  }

  lemma SpansInRange(ordered: seq<Placed>, b: nat)
    requires b < |BREAKPOINTS| && AllColsValid(ordered)
    ensures InRange(Spans(ordered, b))
  {
    forall i | 0 <= i < |ordered|
      ensures 1 <= Spans(ordered, b)[i] <= GRID_COLUMNS
    {
      SpanInRange(Columns(ordered[i].cols), b);
    }
  }

  lemma PackingStarts(spans: seq<int>)
    requires InRange(spans)
    ensures Packing(spans, 0, 0, 0)
  {
    EmptyTiles();
    PacksExactly(spans, 0);
    assert spans[0..] == spans && spans[..0] == [] && spans[0..0] == [];
  }

  /** The loop stands before widget `j`: `row` and `total` are what the current row has so far, since widget `start`. */
  ghost predicate AtWidget(spans: seq<int>, ordered: seq<Placed>, start: nat, j: nat, row: seq<string>, total: int) {
    |spans| == |ordered| && InRange(spans) && Packing(spans, start, j, total) && NamesOf(ordered, start, j, row)
  }

  lemma AtNextWidget(spans: seq<int>, ordered: seq<Placed>, start: nat, j: nat, row: seq<string>, total: int,
                     start': nat, row': seq<string>, total': int)
    requires AtWidget(spans, ordered, start, j, row, total)
    requires j < |ordered| && total + spans[j] <= GRID_COLUMNS
    requires total + spans[j] == GRID_COLUMNS ==> start' == j + 1 && row' == [] && total' == 0
    requires total + spans[j] < GRID_COLUMNS ==>
              start' == start && row' == row + [ordered[j].name] && total' == total + spans[j]
    ensures AtWidget(spans, ordered, start', j + 1, row', total')
  {
    PackingStep(spans, start, j, total);
    assert Names(ordered)[start..j + 1] == Names(ordered)[start..j] + [ordered[j].name];
    assert Names(ordered)[j + 1..j + 1] == [];
  }

  /** A row that cannot be closed means that no cutting exists. */
  lemma PackingFails(spans: seq<int>, start: nat, j: nat, total: int)
    requires Packing(spans, start, j, total)
    requires if j < |spans| then total + spans[j] > GRID_COLUMNS else total != 0
    ensures !Tiles(spans)
  {
    assert j < |spans| ==> spans[j..][0] == spans[j];
  }

  lemma ReportShortRow(ordered: seq<Placed>, b: nat, start: nat, j: nat, row: seq<string>, total: int)
    requires b < |BREAKPOINTS| && AllColsValid(ordered)
    requires AtWidget(Spans(ordered, b), ordered, start, j, row, total)
    requires if j < |ordered| then total + Spans(ordered, b)[j] > GRID_COLUMNS else row != []
    ensures !Tiles(Spans(ordered, b)) && ShortRow(ordered, b, row, total)
  {
    PackingFails(Spans(ordered, b), start, j, total);
    assert IsShortRow(ordered, b, row, total, start, j);
  }

  /** No row is left open after the last widget. */
  lemma AllTiled(spans: seq<int>, ordered: seq<Placed>, start: nat, total: int)
    requires AtWidget(spans, ordered, start, |ordered|, [], total)
    ensures Tiles(spans)
  {
    assert spans[..start] == spans;
  }

  /** The spans a widget declares. */
  lemma ColumnsExactly(cols: Cols)
    requires ValidCols(cols)
    ensures cols == NoCols ==> Columns(cols) == map[]
    ensures cols.Cols? ==>
              && Columns(cols).Keys == cols.spans.Keys
              && forall b :: b in cols.spans ==> cols.spans[b] == Span(Columns(cols)[b])
  {
  }

  /** The row and total loop at one breakpoint. */
  method CheckBreakpoint(ordered: seq<Placed>, b: nat) returns (r: Result<(), LayoutError>)
    requires b < |BREAKPOINTS| && AllColsValid(ordered)
    ensures r.Ok? <==> Tiles(Spans(ordered, b))
    ensures r.Err? ==> r.error.RowNotFull? && r.error.breakpoint == BREAKPOINTS[b]
    ensures r.Err? ==> ShortRow(ordered, b, r.error.row, r.error.total)
  {
    ghost var spans := Spans(ordered, b);
    SpansInRange(ordered, b);
    PackingStarts(spans);
    var row, total := [], 0;
    ghost var start := 0;
    var j := 0;
    while j < |ordered|
      invariant AtWidget(spans, ordered, start, j, row, total)
    {
      var span := EffectiveSpan(Columns(ordered[j].cols), b);
      assert span == spans[j];
      if total + span > GRID_COLUMNS {
        ReportShortRow(ordered, b, start, j, row, total);
        return Err(RowNotFull(BREAKPOINTS[b], row, total));
      }
      ghost var start0, row0, total0 := start, row, total;
      row := row + [ordered[j].name];
      total := total + span;
      if total == GRID_COLUMNS {
        row, total := [], 0;
        start := j + 1;
      }
      AtNextWidget(spans, ordered, start0, j, row0, total0, start, row, total);
      j := j + 1;
    }
    if row != [] {
      ReportShortRow(ordered, b, start, j, row, total);
      return Err(RowNotFull(BREAKPOINTS[b], row, total));
    }
    AllTiled(spans, ordered, start, total);
    r := Ok(());
  }

  /** The error names a widget whose cols are wrong, and says in which way. */
  ghost predicate Blames(ws: seq<Placed>, e: LayoutError) {
    exists w :: w in ws && !ValidCols(w.cols) &&
        e == (if w.cols.NotADict? then ColsNotADict(w.name) else InvalidCols(w.name))
  }

  /** The declared cols must be well-formed before any row is measured. */
  method CheckCols(ordered: seq<Placed>) returns (r: Result<(), LayoutError>)
    ensures r.Ok? <==> AllColsValid(ordered)
    ensures r.Ok? <==> forall i :: 0 <= i < |ordered| ==>
              || ordered[i].cols == NoCols
              || (ordered[i].cols.Cols? && forall b :: b in ordered[i].cols.spans ==>
                    && b in {"xs", "sm", "md", "lg", "xl"}
                    && ordered[i].cols.spans[b].Span? && 1 <= ordered[i].cols.spans[b].columns <= 12)
    ensures r.Err? ==> Blames(ordered, r.error)
  {
    var i := 0;
    while i < |ordered|
      invariant 0 <= i <= |ordered|
      invariant forall k :: 0 <= k < i ==> ValidCols(ordered[k].cols)
    {
      var w := ordered[i];
      if w.cols.NotADict? {
        return Err(ColsNotADict(w.name));
      }
      if w.cols.Cols? && exists b :: b in w.cols.spans && !ValidEntry(b, w.cols.spans[b]) {
        return Err(InvalidCols(w.name));
      }
      i := i + 1;
    }
    r := Ok(());
  }

  lemma OrderedKeepsCols(ws: seq<Placed>)
    ensures AllColsValid(Ordered(ws)) <==> AllColsValid(ws)
  {
    OrderedElements(ws);
    forall w
      ensures w in ws <==> w in Ordered(ws)
    {
      assert w in multiset(ws) <==> w in multiset(Ordered(ws));
    }
    assert AllColsValid(ws) <==> forall w :: w in ws ==> ValidCols(w.cols);
    assert AllColsValid(Ordered(ws)) <==> forall w :: w in Ordered(ws) ==> ValidCols(w.cols);
  }

  /** At this breakpoint the widgets, in stable order, fill complete rows. */
  ghost predicate FillsRows(ws: seq<Placed>, b: nat)
    requires b < |BREAKPOINTS| && AllColsValid(Ordered(ws))
  {
    Tiles(Spans(Ordered(ws), b))
  }

  /**
    Accepts a widget list exactly when its cols are well-formed and, at each of the five breakpoints,
    the spans in stable order can be cut into rows of exactly twelve. A rejection names a widget with
    malformed cols, or a non-empty row strictly between 0 and 12 columns.
   */
  method ValidateLayout(widgets: seq<Placed>) returns (r: Result<(), LayoutError>)
    ensures AllColsValid(Ordered(widgets)) <==> AllColsValid(widgets)
    ensures r.Ok? <==> AllColsValid(widgets) && forall b :: 0 <= b < |BREAKPOINTS| ==> FillsRows(widgets, b)
    ensures r.Err? && !AllColsValid(widgets) ==> Blames(Ordered(widgets), r.error)
    ensures r.Err? && AllColsValid(widgets) ==>
              r.error.RowNotFull? && r.error.row != [] && 0 < r.error.total < GRID_COLUMNS
              && exists b :: 0 <= b < |BREAKPOINTS| && BREAKPOINTS[b] == r.error.breakpoint
                             && ShortRow(Ordered(widgets), b, r.error.row, r.error.total)
  {
    var ordered := Ordered(widgets);
    OrderedKeepsCols(widgets);
    r := CheckCols(ordered);
    if r.Err? {
      return;
    }
    var b := 0;
    while b < |BREAKPOINTS|
      invariant 0 <= b <= |BREAKPOINTS| && r.Ok?
      invariant forall i :: 0 <= i < b ==> FillsRows(widgets, i)
    {
      r := CheckBreakpoint(ordered, b);
      if r.Err? {
        assert !FillsRows(widgets, b);
        return;
      }
      b := b + 1;
    }
  }
}
