/** The dispatcher: the fast path, the periodic batch and stuck recovery. */
module Dispatching {
  import opened Wrappers
  import opened Enums
  import opened Rows
  import opened Cells
  import opened CellRuns
  import PatientRecovery
  import opened Systems
  import opened Interference
  import opened Database
  import opened Selection

  /** One call of `delay`: accepted, or raising with or without the message having reached the broker. */
  datatype Turn = Turn(at: Time, accepted: bool, reached: bool)

  /** A row after an undisturbed `try_dispatch`. */
  function Dispatched(row: Row, t: Turn): Row {
    if !Dispatchable(row) then row
    else if t.accepted then row.(status := Queued, dispatchingAt := Some(t.at))
    else row.(status := Pending, dispatchingAt := None)
  }

  /** The table after an undisturbed `try_dispatch` of one id. */
  function Tried(rows: map<Key, Row>, k: Key, t: Turn): map<Key, Row> {
    if k in rows then rows[k := Dispatched(rows[k], t)] else rows
  }

  lemma DispatchedInTwo(rows: map<Key, Row>, k: Key, t: Turn)
    requires k in rows && Dispatchable(rows[k])
    ensures var claimed := rows[k := rows[k].(status := Enums.Dispatching, dispatchingAt := Some(t.at))];
      claimed[k := if t.accepted then claimed[k].(status := Queued)
                   else claimed[k].(status := Pending, dispatchingAt := None)]
      == Tried(rows, k, t)
      == rows[k := if t.accepted then rows[k].(status := Queued, dispatchingAt := Some(t.at))
                   else rows[k].(status := Pending, dispatchingAt := None)]
  {
  }

  method EnqueueOrRelease(db: Database, k: Key, t: Turn, ghost j: nat, ghost quiet: bool)
    requires db.Valid() && k in db.rows && DispatcherAt(db.State().cells[k], j, Won)
    modifies db
    ensures db.Valid() && Leads(db.cfg, old(db.State()), db.State())
    ensures quiet && old(db.rows[k]).status == Enums.Dispatching ==>
              db.rows == old(db.rows)[k := if t.accepted then old(db.rows[k]).(status := Queued)
                                           else old(db.rows[k]).(status := Pending, dispatchingAt := None)]
  {
    ghost var s0 := db.State();
    db.Delay(k, t.accepted, t.reached, j);
    ghost var s1 := db.State();
    db.Interfere(DispatcherAgent(k, j), quiet);
    ghost var s2 := db.State();
    db.Settle(k, t.accepted, j);
    LeadsAround(db.cfg, s0, s1, s2, db.State(), DispatcherAgent(k, j));
  }

  /**
    One conditional UPDATE decides who dispatches; a row that is not eligible is left alone. `claimed` says
    whether this call won the row; it has claimed and enqueued it if then `t` is accepted.
   */
  method TryDispatch(db: Database, k: Key, t: Turn, ghost quiet: bool) returns (ghost claimed: bool)
    requires db.Valid()
    modifies db
    ensures db.Valid() && Leads(db.cfg, old(db.State()), db.State())
    ensures claimed <==>
              k in old(db.rows) && (old(db.rows[k]).status == Pending || old(db.rows[k]).status == Retry)
    ensures quiet ==> db.rows == Tried(old(db.rows), k, t)
    ensures quiet && claimed ==>
              db.rows == old(db.rows)[k :=
                  if t.accepted then old(db.rows[k]).(status := Queued, dispatchingAt := Some(t.at))
                  else old(db.rows[k]).(status := Pending, dispatchingAt := None)]
    ensures quiet && !claimed ==> db.rows == old(db.rows)
  {
    ghost var s0 := db.State();
    LeadsNowhere(db.cfg, s0, Outsider);
    if k !in db.rows {
      return false;
    }
    ghost var rows0 := db.rows;
    var won, j := db.ClaimForDispatch(k, t.at);
    claimed := won;
    if !won {
      assert quiet ==> rows0[k := rows0[k]] == rows0;
      return;
    }
    ghost var s1 := db.State();
    db.Interfere(DispatcherAgent(k, j), quiet);
    ghost var s2 := db.State();
    EnqueueOrRelease(db, k, t, j, quiet);
    LeadsAround(db.cfg, s0, s1, s2, db.State(), DispatcherAgent(k, j));
    DispatchedInTwo(rows0, k, t);
  }

  // ---------------------------------------------------------------------------------------------
  // The periodic batch
  // ---------------------------------------------------------------------------------------------

  /** The rows after trying each id in turn, undisturbed. */
  function BatchRows(rows: map<Key, Row>, ids: seq<Key>, turns: seq<Turn>): map<Key, Row>
    requires |ids| == |turns|
  {
    if ids == [] then rows else BatchRows(Tried(rows, ids[0], turns[0]), ids[1..], turns[1..])
  }

  lemma BatchAt(rows: map<Key, Row>, ids: seq<Key>, turns: seq<Turn>, n: nat)
    requires |ids| == |turns| && n < |ids|
    ensures BatchRows(rows, ids[n..], turns[n..]) ==
            BatchRows(Tried(rows, ids[n], turns[n]), ids[n + 1..], turns[n + 1..])
  {
    assert ids[n..][0] == ids[n] && ids[n..][1..] == ids[n + 1..] && turns[n..][1..] == turns[n + 1..];
  }

  /** Distinct rows that may all be dispatched. */
  predicate Eligible(rows: map<Key, Row>, ids: seq<Key>) {
    && (forall i, j :: 0 <= i < j < |ids| ==> ids[i] != ids[j])
    && (forall i :: 0 <= i < |ids| ==> ids[i] in rows && Dispatchable(rows[ids[i]]))
  }

  lemma StillEligible(rows: map<Key, Row>, ids: seq<Key>, n: nat, t: Turn)
    requires n < |ids| && Eligible(rows, ids[n..])
    ensures Eligible(Tried(rows, ids[n], t), ids[n + 1..])
    ensures ids[n] in rows && Dispatchable(rows[ids[n]])
  {
    assert ids[n..][0] == ids[n] && ids[n..][1..] == ids[n + 1..];
  }

  /** Tries the id at `n`: what is left of the batch from there is what was left of it before. */
  method TryOne(db: Database, ids: seq<Key>, turns: seq<Turn>, n: nat, ghost quiet: bool)
    returns (ghost claimed: bool)
    requires db.Valid() && |turns| == |ids| && n < |ids|
    modifies db
    ensures db.Valid() && Leads(db.cfg, old(db.State()), db.State())
    ensures quiet ==> BatchRows(db.rows, ids[n + 1..], turns[n + 1..]) ==
                      BatchRows(old(db.rows), ids[n..], turns[n..])
    ensures quiet && Eligible(old(db.rows), ids[n..]) ==> claimed && Eligible(db.rows, ids[n + 1..])
  {
    BatchAt(db.rows, ids, turns, n);
    if Eligible(db.rows, ids[n..]) {
      StillEligible(db.rows, ids, n, turns[n]);
    }
    claimed := TryDispatch(db, ids[n], turns[n], quiet);
  }

  /** Tries the ids one by one; `claims` says which of them were still eligible when they were tried. */
  method TryEach(db: Database, ids: seq<Key>, turns: seq<Turn>, ghost quiet: bool) returns (ghost claims: seq<bool>)
    requires db.Valid() && |turns| == |ids|
    modifies db
    ensures db.Valid() && Leads(db.cfg, old(db.State()), db.State())
    ensures |claims| == |ids|
    ensures quiet ==> db.rows == BatchRows(old(db.rows), ids, turns)
    ensures quiet && Eligible(old(db.rows), ids) ==> forall i :: 0 <= i < |claims| ==> claims[i]
  {
    ghost var s0, all := db.State(), BatchRows(db.rows, ids, turns);
    ghost var calm := quiet && Eligible(db.rows, ids);
    LeadsNowhere(db.cfg, s0, Outsider);
    assert ids[0..] == ids && turns[0..] == turns;
    claims := [];
    var n := 0;
    while n < |ids|
      invariant 0 <= n == |claims| <= |ids|
      invariant db.Valid() && Leads(db.cfg, s0, db.State())
      invariant quiet ==> BatchRows(db.rows, ids[n..], turns[n..]) == all
      invariant calm ==> Eligible(db.rows, ids[n..]) && false !in claims
    {
      ghost var s1 := db.State();
      ghost var claimed := TryOne(db, ids, turns, n, quiet);
      LeadsTrans(db.cfg, s0, s1, db.State());
      claims := claims + [claimed];
      n := n + 1;
    }
  }

  /** How many rows were claimed and enqueued. */
  function Enqueued(claims: seq<bool>, turns: seq<Turn>): nat
    requires |turns| == |claims|
  {
    if claims == [] then 0 else (if claims[0] && turns[0].accepted then 1 else 0) + Enqueued(claims[1..], turns[1..])
  }

  /** It is the number of rows tried exactly if every one was claimed and every publication accepted. */
  lemma {:induction false} AllEnqueued(claims: seq<bool>, turns: seq<Turn>)
    requires |turns| == |claims|
    ensures Enqueued(claims, turns) <= |claims|
    ensures Enqueued(claims, turns) == |claims| <==> forall i :: 0 <= i < |claims| ==> claims[i] && turns[i].accepted
    decreases |claims|
  {
    if claims != [] {
      AllEnqueued(claims[1..], turns[1..]);
      assert forall i :: 0 < i < |claims| ==> claims[i] == claims[1..][i - 1] && turns[i] == turns[1..][i - 1];
    }
  }

  function Taken(turns: nat -> Turn, count: nat): seq<Turn> {
    seq(count, i requires 0 <= i < count => turns(i))
  }

  /**
    Selects the due rows, `ids`, and tries each; others may act between any two statements. It returns how many
    were selected. That is how many were claimed and enqueued exactly if each was still eligible when it was tried
    and each publication was accepted. Undisturbed they all are eligible: each is QUEUED under its new claim, or
    PENDING again if its publication raised, and no other row changes.
   */
  method DispatchEligibleBatch(db: Database, now: Time, size: nat, setting: nat, turns: nat -> Turn, ghost quiet: bool)
    returns (count: nat, ghost ids: seq<Key>, ghost claims: seq<bool>)
    requires db.Valid()
    modifies db
    ensures db.Valid() && Leads(db.cfg, old(db.State()), db.State())
    ensures |ids| == |claims| == count <= (if size == 0 then setting else size)
    ensures IsSelection(old(db.rows), now, if size == 0 then setting else size, ids)
    ensures forall i :: 0 <= i < count ==>
              && ids[i] in old(db.rows)
              && var row := old(db.rows)[ids[i]];
                 && (row.status == Pending || row.status == Retry) && row.scheduledAt <= now
                 && (row.nextRetryAt == None || row.nextRetryAt.value <= now)
    ensures count < (if size == 0 then setting else size) ==> forall k :: k in old(db.rows) ==>
              var row := old(db.rows)[k];
              && (row.status == Pending || row.status == Retry) && row.scheduledAt <= now
              && (row.nextRetryAt == None || row.nextRetryAt.value <= now)
              ==> k in ids
    ensures Enqueued(claims, Taken(turns, count)) == count <==>
              forall i :: 0 <= i < count ==> claims[i] && turns(i).accepted
    ensures quiet ==> db.rows == BatchRows(old(db.rows), ids, Taken(turns, count))
    ensures quiet ==> Treated(old(db.rows), db.rows, ids, Taken(turns, count))
    ensures quiet ==> forall i :: 0 <= i < count ==> claims[i]
  {
    ghost var s0, rows0 := db.State(), db.rows;
    var limit := if size == 0 then setting else size;
    var selected := SelectEligibleIds(db.rows, now, limit);
    ids := selected;
    db.Interfere(Outsider, quiet);
    ghost var s1 := db.State();
    var all := Taken(turns, |selected|);
    assert quiet ==> db.rows == rows0;
    SelectedAreEligible(rows0, now, limit, ids);
    claims := TryEach(db, selected, all, quiet);
    OthersThenMe(db.cfg, s0, s1, db.State());
    AllTakenEnqueued(claims, turns);
    SelectionMeans(rows0, now, limit, ids);
    BatchIsTreated(rows0, now, limit, ids, all);
    count := |selected|;
  }

  /** Each listed row has been claimed at its turn's time and queued, or is pending again; no other row differs. */
  ghost predicate Treated(before: map<Key, Row>, after: map<Key, Row>, ids: seq<Key>, turns: seq<Turn>) {
    && |turns| == |ids| && after.Keys == before.Keys
    && (forall i :: 0 <= i < |ids| ==>
          && ids[i] in before
          && after[ids[i]] ==
             if turns[i].accepted
             then before[ids[i]].(status := Queued, dispatchingAt := Some(turns[i].at))
             else before[ids[i]].(status := Pending, dispatchingAt := None))
    && (forall k :: k in before && k !in ids ==> after[k] == before[k])
  }

  lemma BatchIsTreated(rows: map<Key, Row>, now: Time, size: nat, ids: seq<Key>, turns: seq<Turn>)
    requires IsSelection(rows, now, size, ids) && |turns| == |ids|
    ensures Treated(rows, BatchRows(rows, ids, turns), ids, turns)
  {
    BatchEffect(rows, ids, turns);
    forall i | 0 <= i < |ids|
      ensures Due(rows[ids[i]], now)
    {
      assert ids[i] in DueKeys(rows, now);
    }
  }

  lemma AllTakenEnqueued(claims: seq<bool>, turns: nat -> Turn)
    ensures Enqueued(claims, Taken(turns, |claims|)) == |claims| <==>
              forall i :: 0 <= i < |claims| ==> claims[i] && turns(i).accepted
  {
    var all := Taken(turns, |claims|);
    AllEnqueued(claims, all);
    assert forall i :: 0 <= i < |claims| ==> all[i] == turns(i);
  }

  lemma OthersThenMe(cfg: Config, s: Sys, t: Sys, u: Sys)
    requires LeadsWithout(cfg, s, t, Outsider) && Leads(cfg, t, u)
    ensures Leads(cfg, s, u)
  {
    LeadsNowhere(cfg, s, Outsider);
    LeadsAround(cfg, s, s, t, u, Outsider);
  }

  lemma SelectedAreEligible(rows: map<Key, Row>, now: Time, size: nat, ids: seq<Key>)
    requires IsSelection(rows, now, size, ids)
    ensures Eligible(rows, ids)
  {
  }

  /** Undisturbed, every selected row is dispatched once with its own turn, and no other row changes. */
  lemma {:induction false} BatchEffect(rows: map<Key, Row>, ids: seq<Key>, turns: seq<Turn>)
    requires |ids| == |turns|
    requires forall i, j :: 0 <= i < j < |ids| ==> ids[i] != ids[j]
    requires forall i :: 0 <= i < |ids| ==> ids[i] in rows
    ensures var after := BatchRows(rows, ids, turns);
      && after.Keys == rows.Keys
      && (forall i :: 0 <= i < |ids| ==> after[ids[i]] == Dispatched(rows[ids[i]], turns[i]))
      && (forall k :: k in rows && k !in ids ==> after[k] == rows[k])
    decreases |ids|
  {
    if ids != [] {
      var next := rows[ids[0] := Dispatched(rows[ids[0]], turns[0])];
      BatchEffect(next, ids[1..], turns[1..]);
      var after := BatchRows(next, ids[1..], turns[1..]);
      forall i | 0 <= i < |ids|
        ensures after[ids[i]] == Dispatched(rows[ids[i]], turns[i])
      {
        if i > 0 {
          assert ids[i] == ids[1..][i - 1];
        } else {
          assert ids[0] !in ids[1..];
        }
      }
    }
  }

  /** The due rows left by an undisturbed batch are those not accepted. */
  lemma BatchDue(rows: map<Key, Row>, now: Time, size: nat, ids: seq<Key>, turns: seq<Turn>)
    requires IsSelection(rows, now, size, ids) && |turns| == |ids|
    ensures var after := BatchRows(rows, ids, turns);
      && Treated(rows, after, ids, turns)
      && DueKeys(after, now) == DueKeys(rows, now) - (set i | 0 <= i < |ids| && turns[i].accepted :: ids[i])
  {
    BatchIsTreated(rows, now, size, ids, turns);
    var after := BatchRows(rows, ids, turns);
    forall i | 0 <= i < |ids|
      ensures ids[i] in DueKeys(rows, now) && (ids[i] in DueKeys(after, now) <==> !turns[i].accepted)
    {
      assert ids[i] in DueKeys(rows, now);
    }
    var gone := set i | 0 <= i < |ids| && turns[i].accepted :: ids[i];
    forall k
      ensures k in DueKeys(after, now) <==> k in DueKeys(rows, now) - gone
    {
      if k in ids {
        var i :| 0 <= i < |ids| && ids[i] == k;
        assert k in gone <==> turns[i].accepted;
      }
    }
  }

  lemma {:induction false} DistinctSize(ids: seq<Key>, s: set<Key>)
    requires forall i, j :: 0 <= i < j < |ids| ==> ids[i] != ids[j]
    requires forall k :: k in s <==> k in ids
    ensures |s| == |ids|
    decreases |ids|
  {
    if ids == [] {
      assert s == {};
    } else {
      assert ids[0] in s && ids[0] !in ids[1..];
      DistinctSize(ids[1..], s - {ids[0]});
    }
  }

  /** Of an undisturbed batch's selection, all are queued afterwards exactly if every publication was accepted. */
  lemma QueuedAreCounted(rows: map<Key, Row>, now: Time, size: nat, ids: seq<Key>, turns: seq<Turn>)
    requires IsSelection(rows, now, size, ids) && |turns| == |ids|
    ensures var after := BatchRows(rows, ids, turns);
            var queued := set k | k in ids && k in after && after[k].status == Queued;
      && |queued| <= |ids|
      && (|queued| == |ids| <==> forall i :: 0 <= i < |turns| ==> turns[i].accepted)
  {
    BatchDue(rows, now, size, ids, turns);
    var after := BatchRows(rows, ids, turns);
    var all := set k | k in ids;
    var queued := set k | k in ids && k in after && after[k].status == Queued;
    DistinctSize(ids, all);
    Subset(queued, all);
    forall i | 0 <= i < |ids|
      ensures ids[i] in queued <==> turns[i].accepted
    {
    }
    if forall i :: 0 <= i < |turns| ==> turns[i].accepted {
      assert queued == all;
    } else {
      var i :| 0 <= i < |turns| && !turns[i].accepted;
      assert ids[i] in all && ids[i] !in queued;
    }
  }

  lemma Subset(part: set<Key>, whole: set<Key>)
    requires part <= whole
    ensures |part| <= |whole| && (|part| == |whole| <==> part == whole)
  {
    assert whole == part + (whole - part);
  }

  const DUE_ROW := NewRow(Notice("r", Email, System, "normal", Recipient("user", "user:1", "a@b.c", ""), "a@b.c", "",
      "", None), 0.0, 5)
  const REFUSED := Turn(0.0, false, false)

  /** One due row and a broker that refuses: the batch counts one row, and nothing is queued. */
  lemma RefusedRowsAreCounted()
    ensures var rows := map["k" := DUE_ROW];
      && IsSelection(rows, 0.0, 100, ["k"])
      && BatchRows(rows, ["k"], [REFUSED]) == map["k" := Dispatched(DUE_ROW, REFUSED)]
      && Dispatched(DUE_ROW, REFUSED).status == Pending
      && Enqueued([true], [REFUSED]) == 0 < |["k"]|
  {
    var rows := map["k" := DUE_ROW];
    assert DueKeys(rows, 0.0) == {"k"};
    assert ["k"][1..] == [] && [REFUSED][1..] == [] && [true][1..] == [];
  }

  /** One undisturbed batch with a reachable broker. */
  ghost predicate CleanBatch(rows: map<Key, Row>, after: map<Key, Row>, now: Time, size: nat) {
    exists ids: seq<Key>, turns: seq<Turn> ::
      && |turns| == |ids| && IsSelection(rows, now, size, ids)
      && (forall i :: 0 <= i < |turns| ==> turns[i].accepted)
      && after == BatchRows(rows, ids, turns)
  }

  /** With a reachable broker, what the batch method leaves is a clean batch. */
  lemma BatchIsClean(before: map<Key, Row>, after: map<Key, Row>, now: Time, size: nat, ids: seq<Key>,
                     turns: nat -> Turn)
    requires IsSelection(before, now, size, ids) && after == BatchRows(before, ids, Taken(turns, |ids|))
    requires forall i :: turns(i).accepted
    ensures CleanBatch(before, after, now, size)
  {
    var all := Taken(turns, |ids|);
    assert |all| == |ids| && after == BatchRows(before, ids, all);
  }

  lemma AcceptedAll(rows: map<Key, Row>, now: Time, size: nat, ids: seq<Key>, turns: seq<Turn>)
    requires |turns| == |ids| && IsSelection(rows, now, size, ids)
    requires forall i :: 0 <= i < |turns| ==> turns[i].accepted
    ensures |DueKeys(BatchRows(rows, ids, turns), now)| == |DueKeys(rows, now)| - |ids|
  {
    BatchDue(rows, now, size, ids, turns);
    var gone := set i | 0 <= i < |ids| && turns[i].accepted :: ids[i];
    assert forall k :: k in gone <==> k in ids;
    DistinctSize(ids, gone);
    assert gone <= DueKeys(rows, now);
  }

  lemma CleanBatchCount(rows: map<Key, Row>, after: map<Key, Row>, now: Time, size: nat)
    requires CleanBatch(rows, after, now, size)
    ensures |DueKeys(after, now)| == |DueKeys(rows, now)| - Smaller(size, |DueKeys(rows, now)|)
  {
    var ids: seq<Key>, turns: seq<Turn> :|
      && |turns| == |ids| && IsSelection(rows, now, size, ids)
      && (forall i :: 0 <= i < |turns| ==> turns[i].accepted)
      && after == BatchRows(rows, ids, turns);
    AcceptedAll(rows, now, size, ids, turns);
  }

  ghost predicate CleanBatches(tables: seq<map<Key, Row>>, now: Time, size: nat) {
    forall i, j :: 0 <= i < |tables| && j == i + 1 < |tables| ==> CleanBatch(tables[i], tables[j], now, size)
  }

  lemma {:induction false} CountDown(counts: seq<nat>, size: nat)
    requires |counts| >= 1
    requires forall i, j :: 0 <= i < |counts| && j == i + 1 < |counts| ==>
              counts[j] == counts[i] - Smaller(size, counts[i])
    ensures var served := (|counts| - 1) * size;
      counts[|counts| - 1] == if counts[0] <= served then 0 else counts[0] - served
    decreases |counts|
  {
    var n := |counts| - 1;
    if n > 0 {
      CountDown(counts[..n], size);
      assert counts[n] == counts[n - 1] - Smaller(size, counts[n - 1]);
      assert n * size == (n - 1) * size + size;
    }
  }

  /** After n clean runs, n * size rows fewer are due; exactly ceil(due / size) runs drain them all. */
  lemma BatchesDrain(tables: seq<map<Key, Row>>, now: Time, size: nat)
    requires |tables| >= 1 && size >= 1 && CleanBatches(tables, now, size)
    ensures var n := |tables| - 1;
            var due := |DueKeys(tables[0], now)|;
      && |DueKeys(tables[n], now)| == (if due <= n * size then 0 else due - n * size)
      && (DueKeys(tables[n], now) == {} <==> n >= (due + size - 1) / size)
  {
    var counts := seq(|tables|, i requires 0 <= i < |tables| => |DueKeys(tables[i], now)|);
    forall i, j | 0 <= i < |counts| && j == i + 1 < |counts|
      ensures counts[j] == counts[i] - Smaller(size, counts[i])
    {
      CleanBatchCount(tables[i], tables[j], now, size);
    }
    CountDown(counts, size);
    Ceiling(counts[0], size, |tables| - 1);
  }

  lemma Multiples(a: int, b: int, size: int)
    requires a <= b && size >= 0
    ensures a * size <= b * size
  {
    assert b * size - a * size == (b - a) * size;
  }

  lemma Quotient(x: nat, size: nat)
    requires size >= 1
    ensures x / size * size <= x < x / size * size + size
  {
  }

  lemma Ceiling(due: nat, size: nat, n: nat)
    requires size >= 1
    ensures due <= n * size <==> n >= (due + size - 1) / size
  {
    var q := (due + size - 1) / size;
    Quotient(due + size - 1, size);
    if n >= q {
      Multiples(q, n, size);
    } else {
      Multiples(n + 1, q, size);
      assert (n + 1) * size == n * size + size;
    }
  }

  /** The tables after each of `n` clean batches, from the first to the last. */
  ghost predicate CleanSeries(tables: seq<map<Key, Row>>, first: map<Key, Row>, last: map<Key, Row>, now: Time,
                              size: nat, n: nat) {
    && |tables| == n + 1 && tables[0] == first && tables[n] == last
    && CleanBatches(tables, now, size)
  }

  lemma OneBatchMore(tables: seq<map<Key, Row>>, first: map<Key, Row>, last: map<Key, Row>, after: map<Key, Row>,
                     now: Time, size: nat, n: nat)
    requires CleanSeries(tables, first, last, now, size, n) && CleanBatch(last, after, now, size)
    ensures CleanSeries(tables + [after], first, after, now, size, n + 1)
  {
  }

  /** Every publication of every run is accepted. */
  ghost predicate AllAccepted(turns: nat -> nat -> Turn) {
    forall r, i :: turns(r)(i).accepted
  }

  /**
    The periodic task run `n` times, with nothing new becoming due and a broker that accepts everything:
    every run takes its share, and nothing is left due exactly if n reaches ceil(due / size).
   */
  method RunBatches(db: Database, now: Time, size: nat, setting: nat, n: nat,
                    turns: nat -> nat -> Turn, ghost quiet: bool)
    requires db.Valid() && (size >= 1 || setting >= 1)
    modifies db
    ensures db.Valid() && Leads(db.cfg, old(db.State()), db.State())
    ensures quiet && AllAccepted(turns) ==>
              var limit, due := if size == 0 then setting else size, |DueKeys(old(db.rows), now)|;
              && |DueKeys(db.rows, now)| == (if due <= n * limit then 0 else due - n * limit)
              && (DueKeys(db.rows, now) == {} <==> n >= (due + limit - 1) / limit)
  {
    ghost var s0 := db.State();
    LeadsNowhere(db.cfg, s0, Outsider);
    ghost var limit := if size == 0 then setting else size;
    ghost var clean := quiet && AllAccepted(turns);
    ghost var rows0, tables := db.rows, [db.rows];
    var r := 0;
    while r < n
      invariant 0 <= r <= n
      invariant db.Valid() && Leads(db.cfg, s0, db.State())
      invariant clean ==> CleanSeries(tables, rows0, db.rows, now, limit, r)
    {
      ghost var s1, rows1 := db.State(), db.rows;
      var count, ids, claims := DispatchEligibleBatch(db, now, size, setting, turns(r), quiet);
      LeadsTrans(db.cfg, s0, s1, db.State());
      if clean {
        BatchIsClean(rows1, db.rows, now, limit, ids, turns(r));
        OneBatchMore(tables, rows0, rows1, db.rows, now, limit, r);
      }
      tables := tables + [db.rows];
      r := r + 1;
    }
    if clean {
      BatchesDrain(tables, now, limit);
    }
  }

  // ---------------------------------------------------------------------------------------------
  // Stuck recovery
  // ---------------------------------------------------------------------------------------------

  ghost function Unstuck(rows: map<Key, Row>, at: Time, dispatchTimeout: Time, processingTimeout: Time)
    : map<Key, Row>
  {
    ProcessingReleased(DispatchingReleased(rows, at - dispatchTimeout), at - processingTimeout)
  }

  /**
    Two bulk updates; the sum of their row counts is returned. Undisturbed, exactly the rows claimed at or before
    their cutoff differ afterwards. The timeout alone does not make a run patient.
   */
  method RecoverStuck(db: Database, at: Time, dispatchTimeout: Time, processingTimeout: Time, ghost quiet: bool)
    returns (recovered: nat)
    requires db.Valid()
    modifies db
    ensures db.Valid()
    ensures !db.cfg.patient || (quiet && PatientMove(old(db.State()), RecoverAllProcessing(at, processingTimeout))) ==>
              Leads(db.cfg, old(db.State()), db.State())
    ensures quiet ==> db.rows == Unstuck(old(db.rows), at, dispatchTimeout, processingTimeout)
    ensures quiet ==> db.rows.Keys == old(db.rows.Keys)
    ensures quiet ==> forall k :: k in db.rows ==>
              var row := old(db.rows)[k];
              (db.rows[k] != row <==>
                 || (row.status == Enums.Dispatching && row.dispatchingAt.Some?
                     && row.dispatchingAt.value <= at - dispatchTimeout)
                 || (row.status == Processing && row.processingAt.Some?
                     && row.processingAt.value <= at - processingTimeout))
    ensures quiet ==> recovered == |Changed(old(db.rows), db.rows)|
  {
    ghost var s0 := db.State();
    ghost var rows0 := db.rows;
    recovered := db.ReleaseExpiredDispatching(at, dispatchTimeout);
    ghost var s1 := db.State();
    db.Interfere(Outsider, quiet);
    ghost var s2 := db.State();
    var more := db.ReleaseExpiredProcessing(at, processingTimeout);
    RecoveryLeads(db.cfg, s0, s1, s2, db.State(), at, dispatchTimeout, processingTimeout, quiet);
    recovered := recovered + more;
    MovedOnce(rows0, at, dispatchTimeout, processingTimeout);
    RecoveryMoves(rows0, at, dispatchTimeout, processingTimeout);
  }

  /** The first update touches no PROCESSING row and no worker, so a patient second one stays patient. */
  lemma StillPatient(s: Sys, at: Time, dispatchTimeout: Time, processingTimeout: Time)
    requires PatientMove(s, RecoverAllProcessing(at, processingTimeout))
    ensures PatientMove(EachRow(s, RecoverDispatching(at, dispatchTimeout)),
              RecoverAllProcessing(at, processingTimeout))
  {
    var e := RecoverProcessing(at, processingTimeout);
    var t := EachRow(s, RecoverDispatching(at, dispatchTimeout));
    forall k | k in t.cells
      ensures PatientRecovery.Patient(t.cells[k], e)
    {
      assert PatientRecovery.Patient(s.cells[k], e);
    }
  }

  lemma RecoveryLeads(cfg: Config, s: Sys, t: Sys, u: Sys, v: Sys, at: Time, dispatchTimeout: Time,
                      processingTimeout: Time, quiet: bool)
    requires Leads(cfg, s, t) && t == EachRow(s, RecoverDispatching(at, dispatchTimeout))
    requires LeadsWithout(cfg, t, u, Outsider) && (quiet ==> u == t)
    requires MoveEnabled(cfg, u, RecoverAllProcessing(at, processingTimeout)) ==> Leads(cfg, u, v)
    ensures !cfg.patient || (quiet && PatientMove(s, RecoverAllProcessing(at, processingTimeout))) ==> Leads(cfg, s, v)
  {
    if quiet && PatientMove(s, RecoverAllProcessing(at, processingTimeout)) {
      StillPatient(s, at, dispatchTimeout, processingTimeout);
      LeadsAround(cfg, s, t, u, v, Outsider);
    } else if !cfg.patient {
      LeadsAround(cfg, s, t, u, v, Outsider);
    }
  }

  /** No row is counted by both updates. */
  lemma MovedOnce(rows: map<Key, Row>, at: Time, dispatchTimeout: Time, processingTimeout: Time)
    ensures var once := DispatchingReleased(rows, at - dispatchTimeout);
            var twice := Unstuck(rows, at, dispatchTimeout, processingTimeout);
      |Changed(rows, twice)| == |Changed(rows, once)| + |Changed(once, twice)|
  {
    var once := DispatchingReleased(rows, at - dispatchTimeout);
    var twice := Unstuck(rows, at, dispatchTimeout, processingTimeout);
    var first, second := Changed(rows, once), Changed(once, twice);
    assert first !! second && Changed(rows, twice) == first + second;
  }

  predicate InHand(row: Row) {
    row.status == Enums.Dispatching || row.status == Processing
  }

  /** Claimed for dispatch or by a worker, at or before the cutoff for that kind of claim. */
  predicate TimedOut(row: Row, at: Time, dispatchTimeout: Time, processingTimeout: Time) {
    || (row.status == Enums.Dispatching && row.dispatchingAt.Some? && row.dispatchingAt.value <= at - dispatchTimeout)
    || (row.status == Processing && row.processingAt.Some? && row.processingAt.value <= at - processingTimeout)
  }

  /** Exactly the timed-out rows change, to PENDING or RETRY with no claim and, for RETRY, due at once. */
  lemma RecoveryMoves(rows: map<Key, Row>, at: Time, dispatchTimeout: Time, processingTimeout: Time)
    ensures var after := Unstuck(rows, at, dispatchTimeout, processingTimeout);
      && after.Keys == rows.Keys
      && (forall k :: k in rows ==>
            (after[k] != rows[k] <==> TimedOut(rows[k], at, dispatchTimeout, processingTimeout)))
      && (forall k :: k in rows && after[k] != rows[k] ==>
            after[k] == if rows[k].status == Processing
                        then rows[k].(status := Retry, processingAt := None, nextRetryAt := None)
                        else rows[k].(status := Pending, dispatchingAt := None))
  {
  }

  /**
    So it leaves no row dispatching or processing exactly when all of them had timed out, and a second call at
    the same time moves none.
   */
  lemma RecoveryIsExact(rows: map<Key, Row>, at: Time, dispatchTimeout: Time, processingTimeout: Time)
    ensures var after := Unstuck(rows, at, dispatchTimeout, processingTimeout);
      && after.Keys == rows.Keys
      && (forall k :: k in rows ==>
            (after[k] != rows[k] <==> TimedOut(rows[k], at, dispatchTimeout, processingTimeout)))
      && ((forall k :: k in after ==> !InHand(after[k])) <==>
          (forall k :: k in rows && InHand(rows[k]) ==> TimedOut(rows[k], at, dispatchTimeout, processingTimeout)))
      && Unstuck(after, at, dispatchTimeout, processingTimeout) == after
  {
    var after := Unstuck(rows, at, dispatchTimeout, processingTimeout);
    RecoveryMoves(rows, at, dispatchTimeout, processingTimeout);
    RecoveryMoves(after, at, dispatchTimeout, processingTimeout);
    forall k | k in rows
      ensures InHand(after[k]) <==> InHand(rows[k]) && !TimedOut(rows[k], at, dispatchTimeout, processingTimeout)
      ensures !TimedOut(after[k], at, dispatchTimeout, processingTimeout)
    {
    }
  }

  function RowsOf(s: Sys): map<Key, Row> {
    map k | k in s.cells :: s.cells[k].row
  }

  lemma InHandIsStamped(c: Cell)
    requires Reachable(c)
    ensures c.row.status == Enums.Dispatching ==> c.row.dispatchingAt.Some?
    ensures c.row.status == Processing ==> c.row.processingAt.Some?
  {
    var c0, es :| Initial(c0) && Run(c0, es) && After(c0, es) == c;
    ClaimTimesAreSet(c0, es);
  }

  /**
    In every reachable state, if no claim is younger than the larger timeout then one recovery leaves
    nothing dispatching or processing: no such row can lack its claim time.
   */
  lemma RecoveryUnsticksEverything(s: Sys, at: Time, dispatchTimeout: Time, processingTimeout: Time)
    requires AllReachable(s)
    requires forall k :: k in s.cells ==>
      var row := s.cells[k].row;
      var oldest := at - (if dispatchTimeout < processingTimeout then processingTimeout else dispatchTimeout);
      && (row.dispatchingAt.Some? ==> row.dispatchingAt.value <= oldest)
      && (row.processingAt.Some? ==> row.processingAt.value <= oldest)
    ensures forall k :: k in s.cells ==> !InHand(Unstuck(RowsOf(s), at, dispatchTimeout, processingTimeout)[k])
  {
    var rows := RowsOf(s);
    forall k | k in rows && InHand(rows[k])
      ensures TimedOut(rows[k], at, dispatchTimeout, processingTimeout)
    {
      InHandIsStamped(s.cells[k]);
    }
    RecoveryIsExact(rows, at, dispatchTimeout, processingTimeout);
  }
}
