/** The batch's query: which rows are due, and which of them come first. */
module Selection {
  import opened Wrappers
  import opened Enums
  import opened Rows
  import Conditions
  import opened Cells

  predicate Due(row: Row, now: Time) {
    Dispatchable(row) && row.scheduledAt <= now && (row.nextRetryAt.None? || row.nextRetryAt.value <= now)
  }

  function DueKeys(rows: map<Key, Row>, now: Time): set<Key> {
    set k | k in rows && Due(rows[k], now)
  }

  /** ORDER BY priority, scheduled_at: priorities compare as text, so "critical" < "high" < "low" < "normal". */
  predicate MayPrecede(a: Row, b: Row) {
    Conditions.TextLess(a.notice.priority, b.notice.priority) ||
        (a.notice.priority == b.notice.priority && a.scheduledAt <= b.scheduledAt)
  }

  function Smaller(a: nat, b: nat): nat {
    if a < b then a else b
  }

  /** A possible answer of the selection query: the first `size` due rows in order, ties broken anyhow. */
  ghost predicate IsSelection(rows: map<Key, Row>, now: Time, size: nat, ids: seq<Key>) {
    && (forall i :: 0 <= i < |ids| ==> ids[i] in DueKeys(rows, now))
    && (forall i, j :: 0 <= i < j < |ids| ==> ids[i] != ids[j] && MayPrecede(rows[ids[i]], rows[ids[j]]))
    && (forall i, k :: 0 <= i < |ids| && k in DueKeys(rows, now) && k !in ids ==> MayPrecede(rows[ids[i]], rows[k]))
    && |ids| == Smaller(size, |DueKeys(rows, now)|)
    && (|ids| < size ==> forall k :: k in DueKeys(rows, now) ==> k in ids)
  }

  /**
    In terms of the columns: each selected row waits, its time has come and so has that of its next attempt; every
    such row is selected unless `size` rows are; the selected ones are in order, and no other such row has to come
    before them.
   */
  lemma SelectionMeans(rows: map<Key, Row>, now: Time, size: nat, ids: seq<Key>)
    requires IsSelection(rows, now, size, ids)
    ensures |ids| <= size
    ensures forall i :: 0 <= i < |ids| ==>
              && ids[i] in rows && (rows[ids[i]].status == Pending || rows[ids[i]].status == Retry)
              && rows[ids[i]].scheduledAt <= now
              && (rows[ids[i]].nextRetryAt == None || rows[ids[i]].nextRetryAt.value <= now)
    ensures |ids| < size ==> forall k :: k in rows ==>
              && (rows[k].status == Pending || rows[k].status == Retry) && rows[k].scheduledAt <= now
              && (rows[k].nextRetryAt == None || rows[k].nextRetryAt.value <= now)
              ==> k in ids
    ensures forall i, j :: 0 <= i < j < |ids| ==>
              var a, b := rows[ids[i]], rows[ids[j]];
              && ids[i] != ids[j]
              && (Conditions.TextLess(a.notice.priority, b.notice.priority)
                  || (a.notice.priority == b.notice.priority && a.scheduledAt <= b.scheduledAt))
    ensures forall i, k :: 0 <= i < |ids| && k in rows && k !in ids ==>
              var a, b := rows[ids[i]], rows[k];
              && (b.status == Pending || b.status == Retry) && b.scheduledAt <= now
              && (b.nextRetryAt == None || b.nextRetryAt.value <= now)
              ==> || Conditions.TextLess(a.notice.priority, b.notice.priority)
                  || (a.notice.priority == b.notice.priority && a.scheduledAt <= b.scheduledAt)
  {
    assert forall k :: k in rows && Due(rows[k], now) ==> k in DueKeys(rows, now);
  }

  /** Priorities are texts, so low ones come before normal ones. */
  lemma LowComesBeforeNormal(a: Row, b: Row, c: Row, d: Row)
    requires a.notice.priority == "critical" && b.notice.priority == "high"
    requires c.notice.priority == "low" && d.notice.priority == "normal"
    ensures MayPrecede(a, b) && MayPrecede(b, c) && MayPrecede(c, d)
    ensures !MayPrecede(b, a) && !MayPrecede(c, b) && !MayPrecede(d, c)
  {
  }

  // ---------------------------------------------------------------------------------------------
  // The order is a total preorder, so the query always has an answer
  // ---------------------------------------------------------------------------------------------

  lemma {:induction false} TextTotal(a: string, b: string)
    ensures a == b || Conditions.TextLess(a, b) || Conditions.TextLess(b, a)
    decreases |a|
  {
    if a != [] && b != [] && a[0] == b[0] {
      TextTotal(a[1..], b[1..]);
      assert a == [a[0]] + a[1..] && b == [b[0]] + b[1..];
    }
  }

  lemma {:induction false} TextTransitive(a: string, b: string, c: string)
    requires Conditions.TextLess(a, b) && Conditions.TextLess(b, c)
    ensures Conditions.TextLess(a, c)
    decreases |a|
  {
    if a != [] && a[0] == b[0] && b[0] == c[0] {
      TextTransitive(a[1..], b[1..], c[1..]);
    }
  }

  lemma Preorder(a: Row, b: Row, c: Row)
    ensures MayPrecede(a, b) || MayPrecede(b, a)
    ensures MayPrecede(a, b) && MayPrecede(b, c) ==> MayPrecede(a, c)
  {
    var p, q, r := a.notice.priority, b.notice.priority, c.notice.priority;
    TextTotal(p, q);
    if Conditions.TextLess(p, q) && Conditions.TextLess(q, r) {
      TextTransitive(p, q, r);
    }
  }

  method Earliest(rows: map<Key, Row>, keys: set<Key>) returns (first: Key)
    requires keys != {} && keys <= rows.Keys
    ensures first in keys && forall k :: k in keys ==> MayPrecede(rows[first], rows[k])
  {
    first :| first in keys;
    Preorder(rows[first], rows[first], rows[first]);
    var rest := keys - {first};
    while rest != {}
      invariant rest <= keys && first in keys
      invariant forall k :: k in keys - rest ==> MayPrecede(rows[first], rows[k])
      decreases |rest|
    {
      var k :| k in rest;
      Preorder(rows[first], rows[k], rows[k]);
      if !MayPrecede(rows[first], rows[k]) {
        forall q | q in keys - rest
          ensures MayPrecede(rows[k], rows[q])
        {
          Preorder(rows[k], rows[first], rows[q]);
        }
        Preorder(rows[k], rows[k], rows[k]);
        first := k;
      }
      rest := rest - {k};
    }
  }

  /** The query itself: filter, order_by and slice. */
  method SelectEligibleIds(rows: map<Key, Row>, now: Time, size: nat) returns (ids: seq<Key>)
    ensures IsSelection(rows, now, size, ids)
    ensures forall i :: 0 <= i < |ids| ==>
              && ids[i] in rows && (rows[ids[i]].status == Pending || rows[ids[i]].status == Retry)
              && rows[ids[i]].scheduledAt <= now
              && (rows[ids[i]].nextRetryAt == None || rows[ids[i]].nextRetryAt.value <= now)
    ensures |ids| <= size
    ensures |ids| < size ==> forall k :: k in rows ==>
              && (rows[k].status == Pending || rows[k].status == Retry) && rows[k].scheduledAt <= now
              && (rows[k].nextRetryAt == None || rows[k].nextRetryAt.value <= now)
              ==> k in ids
  {
    var rest := DueKeys(rows, now);
    ids := [];
    while |ids| < size && rest != {}
      invariant rest <= DueKeys(rows, now) && |ids| + |rest| == |DueKeys(rows, now)| && |ids| <= size
      invariant forall k :: k in DueKeys(rows, now) <==> k in rest || k in ids
      invariant forall i :: 0 <= i < |ids| ==> ids[i] !in rest
      invariant forall i, j :: 0 <= i < j < |ids| ==> ids[i] != ids[j] && MayPrecede(rows[ids[i]], rows[ids[j]])
      invariant forall i, k :: 0 <= i < |ids| && k in rest ==> MayPrecede(rows[ids[i]], rows[k])
      decreases |rest|
    {
      var k := Earliest(rows, rest);
      ids, rest := ids + [k], rest - {k};
    }
    SelectionMeans(rows, now, size, ids);
  }
}
