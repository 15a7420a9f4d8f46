/** The stored gap rows of one series and their reconciliation with a fresh scan
    (app/market_data/infrastructure/candle_store.py). */
module GapStore {
  import opened Wrappers
  import opened Ordering
  import opened Coverage

  datatype GapStatus = Open | Ignored | Resolved

  datatype GapRow = GapRow(
    fromTime: int, toTime: int, expectedCount: nat, missingCount: nat, status: GapStatus, resolvedAt: Option<int>)

  /** What one reconciliation works on: the scan of the stored times inside the requested range. */
  datatype Request = Request(
    candles: seq<int>, delta: int, open: int -> bool, requestedFrom: int, requestedTo: int, now: int)

  type Key = (int, int)

  function RowKey(row: GapRow): Key { (row.fromTime, row.toTime) }

  function GapKey(gap: GapWindow): Key { (gap.fromTime, gap.toTime) }

  predicate Live(row: GapRow) { row.status != Resolved }

  /** Rows the reconciliation loads: live ones that overlap the requested range. */
  predicate Fetched(row: GapRow, rq: Request) {
    Live(row) && row.fromTime < rq.requestedTo && row.toTime > rq.requestedFrom
  }

  function Within(candles: seq<int>, low: int, high: int): seq<int> {
    if candles == [] then []
    else
      var last := candles[|candles| - 1];
      Within(candles[..|candles| - 1], low, high) + if low <= last < high then [last] else []
  }

  function StoredTimes(rq: Request): seq<int> { Within(rq.candles, rq.requestedFrom, rq.requestedTo) }

  function Scan(rq: Request): seq<GapWindow>
    requires rq.delta > 0
  {
    InternalGaps(StoredTimes(rq), rq.delta, rq.open)
  }

  // ----- is a recorded gap filled? -----

  function FilledFrom(candidate: int, stop: int, expected: nat, stored: seq<int>, delta: int, open: int -> bool): bool
    requires delta > 0
    decreases stop - candidate
  {
    if candidate >= stop then expected > 0
    else if open(candidate) then Has(stored, candidate)
          && FilledFrom(candidate + delta, stop, expected + 1, stored, delta, open)
    else FilledFrom(candidate + delta, stop, expected, stored, delta, open)
  }

  function IsFilled(row: GapRow, rq: Request): bool
    requires rq.delta > 0
  {
    FilledFrom(row.fromTime, row.toTime, 0, StoredTimes(rq), rq.delta, rq.open)
  }

  method GapIsFilled(row: GapRow, stored: seq<int>, delta: int, open: int -> bool) returns (filled: bool)
    requires delta > 0
    ensures filled == FilledFrom(row.fromTime, row.toTime, 0, stored, delta, open)
  {
    var candidate, expected := row.fromTime, 0;
    while candidate < row.toTime
      invariant FilledFrom(candidate, row.toTime, expected, stored, delta, open) == FilledFrom(row.fromTime,
            row.toTime, 0, stored, delta, open)
      decreases row.toTime - candidate
    {
      if open(candidate) {
        expected := expected + 1;
        if !Has(stored, candidate) {
          return false;
        }
      }
      candidate := candidate + delta;
    }
    return expected > 0;
  }

  ghost predicate AllSlotsStored(start: int, stop: int, stored: seq<int>, delta: int, open: int -> bool) {
    forall t :: OnGrid(start, delta, t) && t < stop && open(t) ==> Has(stored, t)
  }

  ghost predicate SomeSlotExpected(start: int, stop: int, delta: int, open: int -> bool) {
    exists t :: OnGrid(start, delta, t) && t < stop && open(t)
  }

  lemma SlotsStartAtBase(start: int, delta: int, t: int)
    requires delta > 0 && OnGrid(start, delta, t)
    ensures t >= start
  {
  }

  lemma {:induction false} FilledFromMeaning(candidate: int, stop: int, expected: nat, stored: seq<int>, delta: int,
        open: int -> bool)
    requires delta > 0
    ensures FilledFrom(candidate, stop, expected, stored, delta, open) <==>
            AllSlotsStored(candidate, stop, stored, delta, open)
                  && (expected > 0 || SomeSlotExpected(candidate, stop, delta, open))
    decreases stop - candidate
  {
    hide OnGrid, Has;
    forall t
      ensures OnGrid(candidate, delta, t) <==> t == candidate || OnGrid(candidate + delta, delta, t)
      ensures OnGrid(candidate, delta, t) ==> t >= candidate
    {
      SlotStep(candidate, delta, t);
      if OnGrid(candidate, delta, t) {
        SlotsStartAtBase(candidate, delta, t);
      }
    }
    if candidate < stop {
      assert OnGrid(candidate, delta, candidate);
      FilledFromMeaning(candidate + delta, stop, if open(candidate) then expected + 1 else expected, stored, delta, open);
      if SomeSlotExpected(candidate, stop, delta, open) && !open(candidate) {
        var t :| OnGrid(candidate, delta, t) && t < stop && open(t);
        assert OnGrid(candidate + delta, delta, t);
      }
      if SomeSlotExpected(candidate + delta, stop, delta, open) {
        var t :| OnGrid(candidate + delta, delta, t) && t < stop && open(t);
        assert OnGrid(candidate, delta, t);
      }
    }
  }

  /** A recorded gap counts as filled exactly when it expects at least one slot and every expected
      slot is now stored. */
  lemma FilledMeansEveryExpectedSlotIsStored(row: GapRow, rq: Request)
    requires rq.delta > 0
    ensures IsFilled(row, rq) <==>
            && AllSlotsStored(row.fromTime, row.toTime, StoredTimes(rq), rq.delta, rq.open)
            && SomeSlotExpected(row.fromTime, row.toTime, rq.delta, rq.open)
  {
    FilledFromMeaning(row.fromTime, row.toTime, 0, StoredTimes(rq), rq.delta, rq.open);
  }

  // ----- reconciliation, as a function of the rows -----

  predicate Overlap(a: Key, b: Key) { a.0 < b.1 && a.1 > b.0 }

  predicate Superseded(key: Key, gaps: seq<GapWindow>) {
    exists g :: 0 <= g < |gaps| && Overlap(GapKey(gaps[g]), key)
  }

  /** The last of the first `n` gaps with a key, as a dictionary built from them holds it. */
  function FindGap(gaps: seq<GapWindow>, key: Key, n: nat): Option<GapWindow>
    requires n <= |gaps|
  {
    if n == 0 then None
    else if GapKey(gaps[n - 1]) == key then Some(gaps[n - 1])
    else FindGap(gaps, key, n - 1)
  }

  /** The last of the first `n` loaded rows with a key. */
  function FindRow(rows: seq<GapRow>, rq: Request, key: Key, n: nat): Option<nat>
    requires n <= |rows|
  {
    if n == 0 then None
    else if Fetched(rows[n - 1], rq) && RowKey(rows[n - 1]) == key then Some(n - 1)
    else FindRow(rows, rq, key, n - 1)
  }

  predicate Chosen(rows: seq<GapRow>, rq: Request, i: nat)
    requires i < |rows|
  {
    Fetched(rows[i], rq) && FindRow(rows, rq, RowKey(rows[i]), |rows|) == Some(i)
  }

  /** First pass: a loaded row whose gap is gone is resolved when it was replaced or filled. */
  function Resolve(rows: seq<GapRow>, rq: Request, gaps: seq<GapWindow>, i: nat): GapRow
    requires i < |rows| && rq.delta > 0
  {
    var row := rows[i];
    if Chosen(rows, rq, i) && FindGap(gaps, RowKey(row), |gaps|).None?
       && (Superseded(RowKey(row), gaps) || IsFilled(row, rq))
    then row.(status := Resolved, resolvedAt := Some(rq.now))
    else row
  }

  /** Second pass over the first `n` gaps: a loaded row with the key of a gap takes its counts. */
  function Refresh(rows: seq<GapRow>, rq: Request, gaps: seq<GapWindow>, n: nat, i: nat): GapRow
    requires i < |rows| && rq.delta > 0 && n <= |gaps|
  {
    var row := Resolve(rows, rq, gaps, i);
    var match' := FindGap(gaps, RowKey(row), n);
    if Chosen(rows, rq, i) && match'.Some?
    then row.(expectedCount := match'.value.expectedCount, missingCount := match'.value.missingCount)
    else row
  }

  function NewRow(gap: GapWindow): GapRow {
    GapRow(gap.fromTime, gap.toTime, gap.expectedCount, gap.missingCount, Open, None)
  }

  /** Rows added for those of the first `n` gaps that no loaded row matches. */
  function Added(rows: seq<GapRow>, rq: Request, gaps: seq<GapWindow>, n: nat): seq<GapRow>
    requires n <= |gaps|
  {
    if n == 0 then []
    else Added(rows, rq, gaps, n - 1)
         + if FindRow(rows, rq, GapKey(gaps[n - 1]), |rows|).None? then [NewRow(gaps[n - 1])] else []
  }

  function Reconciled(rows: seq<GapRow>, rq: Request, gaps: seq<GapWindow>): seq<GapRow>
    requires rq.delta > 0
  {
    seq(|rows|, i requires 0 <= i < |rows| => Refresh(rows, rq, gaps, |gaps|, i)) + Added(rows, rq, gaps, |gaps|)
  }

  // ----- reconciliation, as it runs -----

  lemma {:induction false} FindRowSkips(rows: seq<GapRow>, rq: Request, key: Key, n: nat, m: nat)
    requires n <= m <= |rows|
    requires forall i :: n <= i < m ==> !(Fetched(rows[i], rq) && RowKey(rows[i]) == key)
    ensures FindRow(rows, rq, key, m) == FindRow(rows, rq, key, n)
    decreases m - n
  {
    if n < m {
      FindRowSkips(rows, rq, key, n, m - 1);
    }
  }

  class GapTable {
    var rows: seq<GapRow>

    constructor ()
      ensures rows == []
    {
      rows := [];
    }

    /** The loaded rows, by key; of several rows with one key the last is kept. */
    method LoadByKey(rq: Request) returns (byKey: map<Key, nat>)
      ensures forall key :: key in byKey <==> FindRow(rows, rq, key, |rows|).Some?
      ensures forall key :: key in byKey ==> FindRow(rows, rq, key, |rows|) == Some(byKey[key])
    {
      byKey := map[];
      for i := 0 to |rows|
        invariant forall key :: key in byKey <==> FindRow(rows, rq, key, i).Some?
        invariant forall key :: key in byKey ==> FindRow(rows, rq, key, i) == Some(byKey[key])
      {
        if Fetched(rows[i], rq) {
          byKey := byKey[RowKey(rows[i]) := i];
        }
      }
    }

    /** First pass: resolves loaded rows whose gap was filled or replaced. */
    method ResolveStale(rq: Request, gaps: seq<GapWindow>, byKey: map<Key, nat>)
      requires rq.delta > 0
      requires forall key :: key in byKey <==> FindRow(rows, rq, key, |rows|).Some?
      requires forall key :: key in byKey ==> FindRow(rows, rq, key, |rows|) == Some(byKey[key])
      modifies this
      ensures |rows| == |old(rows)|
      ensures forall i :: 0 <= i < |rows| ==> rows[i] == Resolve(old(rows), rq, gaps, i)
    {
      ghost var before := rows;
      var i := 0;
      while i < |rows|
        invariant 0 <= i <= |rows| == |before|
        invariant forall j :: 0 <= j < i ==> rows[j] == Resolve(before, rq, gaps, j)
        invariant forall j :: i <= j < |rows| ==> rows[j] == before[j]
      {
        hide FilledFrom, Superseded, FindGap, FindRow;
        var row := rows[i];
        var key := RowKey(row);
        assert row == before[i];
        if Fetched(row, rq) && key in byKey && byKey[key] == i {
          var replaced := Superseded(key, gaps);
          var filled := GapIsFilled(row, StoredTimes(rq), rq.delta, rq.open);
          if FindGap(gaps, key, |gaps|).None? && (replaced || filled) {
            rows := rows[i := row.(status := Resolved, resolvedAt := Some(rq.now))];
          }
        }
        i := i + 1;
      }
    }

    /** Second pass: refreshes the counts of matched rows and adds a row for every other gap. */
    method RefreshAndAdd(rq: Request, gaps: seq<GapWindow>, byKey: map<Key, nat>, ghost before: seq<GapRow>)
      requires rq.delta > 0 && |rows| == |before|
      requires forall i :: 0 <= i < |rows| ==> rows[i] == Resolve(before, rq, gaps, i)
      requires forall key :: key in byKey <==> FindRow(before, rq, key, |before|).Some?
      requires forall key :: key in byKey ==> FindRow(before, rq, key, |before|) == Some(byKey[key])
      modifies this
      ensures rows == Reconciled(before, rq, gaps)
    {
      var g := 0;
      while g < |gaps|
        invariant 0 <= g <= |gaps|
        invariant |before| <= |rows|
        invariant forall i :: 0 <= i < |before| ==> rows[i] == Refresh(before, rq, gaps, g, i)
        invariant rows[|before|..] == Added(before, rq, gaps, g)
      {
        var gap := gaps[g];
        var key := GapKey(gap);
        label top:
        if key in byKey {
          FindRowFinds(before, rq, key, |before|);
          var i := byKey[key];
          rows := rows[i := rows[i].(expectedCount := gap.expectedCount, missingCount := gap.missingCount)];
          assert rows[|before|..] == old@top(rows)[|before|..];
        } else {
          rows := rows + [NewRow(gap)];
          assert rows[|before|..] == old@top(rows)[|before|..] + [NewRow(gap)];
        }
        forall i | 0 <= i < |before|
          ensures rows[i] == Refresh(before, rq, gaps, g + 1, i)
        {
          hide Fetched, Superseded, FilledFrom;
          RefreshStep(before, rq, gaps, g, i);
        }
        g := g + 1;
      }
      assert rows == rows[..|before|] + rows[|before|..];
    }

    /** Scans the stored candles of a range and reconciles the recorded gaps with what is missing now. */
    method PersistInternalGaps(rq: Request) returns (gaps: seq<GapWindow>)
      requires rq.delta > 0
      modifies this
      ensures gaps == Scan(rq)
      ensures rows == Reconciled(old(rows), rq, gaps)
    {
      gaps := FindInternalGaps(StoredTimes(rq), rq.delta, rq.open);
      var byKey := LoadByKey(rq);
      ghost var before := rows;
      ResolveStale(rq, gaps, byKey);
      RefreshAndAdd(rq, gaps, byKey, before);
    }
  }

  lemma {:induction false} FindRowFinds(rows: seq<GapRow>, rq: Request, key: Key, n: nat)
    requires n <= |rows|
    ensures var r := FindRow(rows, rq, key, n);
            r.Some? ==> r.value < n && Fetched(rows[r.value], rq) && RowKey(rows[r.value]) == key
    ensures FindRow(rows, rq, key, n).None? ==> forall i :: 0 <= i < n ==> !(Fetched(rows[i], rq) && RowKey(rows[i]) == key)
  {
    if n > 0 {
      FindRowFinds(rows, rq, key, n - 1);
    }
  }

  lemma {:induction false} FindGapFinds(gaps: seq<GapWindow>, key: Key, n: nat)
    requires n <= |gaps|
    ensures FindGap(gaps, key, n).Some? ==>
          exists g :: 0 <= g < n && gaps[g] == FindGap(gaps, key, n).value && GapKey(gaps[g]) == key
    ensures FindGap(gaps, key, n).None? ==> forall g :: 0 <= g < n ==> GapKey(gaps[g]) != key
  {
    if n > 0 {
      FindGapFinds(gaps, key, n - 1);
      if FindGap(gaps, key, n).Some? && GapKey(gaps[n - 1]) == key {
        assert gaps[n - 1] == FindGap(gaps, key, n).value;
      }
    }
  }

  /** Taking one more gap into account changes only the row chosen for its key. */
  lemma RefreshStep(rows: seq<GapRow>, rq: Request, gaps: seq<GapWindow>, g: nat, i: nat)
    requires i < |rows| && rq.delta > 0 && g < |gaps|
    ensures Refresh(rows, rq, gaps, g + 1, i) ==
            if FindRow(rows, rq, GapKey(gaps[g]), |rows|) == Some(i)
            then Refresh(rows, rq, gaps, g, i).(expectedCount := gaps[g].expectedCount, missingCount := gaps[g].missingCount)
            else Refresh(rows, rq, gaps, g, i)
  {
    FindRowFinds(rows, rq, GapKey(gaps[g]), |rows|);
    hide FilledFrom, Superseded, Fetched;
  }
}
