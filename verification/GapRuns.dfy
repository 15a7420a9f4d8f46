/** What one reconciliation does to the gap rows: which rows stay disjoint, which mirror the gaps just
    found, and that it changes nothing when nothing changed. */
module GapRuns {
  import opened Wrappers
  import opened Ordering
  import opened Coverage
  import opened MissingCounts
  import opened GapStore

  predicate Disjoint(a: GapRow, b: GapRow) { a.toTime <= b.fromTime || b.toTime <= a.fromTime }

  /** Live rows are proper windows and pairwise disjoint; in particular no two share a key. */
  predicate Consistent(rows: seq<GapRow>) {
    && (forall i :: 0 <= i < |rows| && Live(rows[i]) ==> rows[i].fromTime < rows[i].toTime)
    && (forall i, j :: 0 <= i < j < |rows| && Live(rows[i]) && Live(rows[j]) ==> Disjoint(rows[i], rows[j]))
  }

  /** No gap found overlaps a live row that the run does not load. */
  predicate Apart(rows: seq<GapRow>, rq: Request, gaps: seq<GapWindow>) {
    forall i, g :: 0 <= i < |rows| && 0 <= g < |gaps| && Live(rows[i]) && !Fetched(rows[i], rq) ==>
                     !Overlap(RowKey(rows[i]), GapKey(gaps[g]))
  }

  /** No two live rows share a key. */
  predicate DistinctKeys(rows: seq<GapRow>) {
    forall i, j :: 0 <= i < j < |rows| && Live(rows[i]) && Live(rows[j]) ==> RowKey(rows[i]) != RowKey(rows[j])
  }

  // ----- where the gaps of a request lie -----

  lemma {:induction false} WithinBounds(candles: seq<int>, low: int, high: int, y: int)
    ensures Has(Within(candles, low, high), y) <==> Has(candles, y) && low <= y < high
  {
    if candles != [] {
      var (front, last) := (candles[..|candles| - 1], candles[|candles| - 1]);
      WithinBounds(front, low, high, y);
      HasLast(candles, y);
      var r := Within(candles, low, high);
      if low <= last < high {
        HasLast(r, y);
        assert r[..|r| - 1] == Within(front, low, high);
      } else {
        assert r == Within(front, low, high);
      }
    }
  }

  /** What the scan gives the reconciliation: ordered windows that start inside the requested range. */
  predicate Found(gaps: seq<GapWindow>, rq: Request) {
    && (forall g :: 0 <= g < |gaps| ==>
          gaps[g].fromTime < gaps[g].toTime && rq.requestedFrom < gaps[g].fromTime < rq.requestedTo)
    && (forall g, h :: 0 <= g < h < |gaps| ==> gaps[g].toTime <= gaps[h].fromTime)
  }

  lemma EndsInRange(rq: Request)
    requires Sorted(StoredTimes(rq)) != []
    ensures var s := Sorted(StoredTimes(rq));
            rq.requestedFrom <= s[0] && s[|s| - 1] < rq.requestedTo && Ascending(s) && Has(rq.candles, s[|s| - 1])
  {
    SortedIsSorted(StoredTimes(rq));
    var s := Sorted(StoredTimes(rq));
    assert Has(s, s[0]) && Has(s, s[|s| - 1]);
    WithinBounds(rq.candles, rq.requestedFrom, rq.requestedTo, s[0]);
    WithinBounds(rq.candles, rq.requestedFrom, rq.requestedTo, s[|s| - 1]);
  }

  lemma ScanFinds(rq: Request)
    requires rq.delta > 0
    ensures Found(Scan(rq), rq)
  {
    SortedIsSorted(StoredTimes(rq));
    var s := Sorted(StoredTimes(rq));
    GapsAreInOrder(s, rq.delta, rq.open);
    var gaps := Scan(rq);
    if s == [] {
      assert gaps == [];
    } else {
      EndsInRange(rq);
      hide GapsOf, Sorted, StoredTimes;
      assert forall i :: 0 <= i < |gaps| ==> WellFormed(gaps[i], rq.delta);
      forall g | 0 <= g < |gaps|
        ensures rq.requestedFrom < gaps[g].fromTime < rq.requestedTo
      {
        WindowStartsInside(gaps[g], s[|s| - 1], rq.delta);
      }
    }
  }

  lemma WindowStartsInside(w: GapWindow, last: int, delta: int)
    requires delta > 0 && WellFormed(w, delta) && w.toTime < last + delta
    ensures w.fromTime < last
  {
  }

  // ----- one reconciliation -----

  /** The live rows of a result are old rows that survive, or rows added for new gaps. */
  lemma RefreshKeepsWindow(rows: seq<GapRow>, rq: Request, gaps: seq<GapWindow>, i: nat)
    requires i < |rows| && rq.delta > 0
    ensures var r := Refresh(rows, rq, gaps, |gaps|, i);
            && RowKey(r) == RowKey(rows[i])
            && (Live(r) ==> Live(rows[i]) && r.status == rows[i].status)
            && (Live(r) && Chosen(rows, rq, i) ==>
                  FindGap(gaps, RowKey(r), |gaps|).Some? || (!Superseded(RowKey(r), gaps) && !IsFilled(rows[i], rq)))
            && (!Live(rows[i]) ==> r == rows[i])
  {
  }

  lemma ConsistentKeysAreDistinct(rows: seq<GapRow>)
    requires Consistent(rows)
    ensures DistinctKeys(rows)
  {
    forall i, j | 0 <= i < j < |rows| && Live(rows[i]) && Live(rows[j])
      ensures RowKey(rows[i]) != RowKey(rows[j])
    {
      LiveRowsAreDisjoint(rows, i, j);
    }
  }

  lemma DistinctRowsAreChosen(rows: seq<GapRow>, rq: Request, i: nat)
    requires DistinctKeys(rows) && i < |rows| && Fetched(rows[i], rq)
    ensures Chosen(rows, rq, i)
  {
    FindRowFinds(rows, rq, RowKey(rows[i]), |rows|);
  }

  lemma LiveRowsAreDisjoint(rows: seq<GapRow>, i: nat, j: nat)
    requires Consistent(rows) && i < |rows| && j < |rows| && i != j && Live(rows[i]) && Live(rows[j])
    ensures Disjoint(rows[i], rows[j]) && rows[i].fromTime < rows[i].toTime && rows[j].fromTime < rows[j].toTime
  {
  }

  lemma SupersededBy(key: Key, gaps: seq<GapWindow>, g: nat)
    requires g < |gaps| && Overlap(GapKey(gaps[g]), key)
    ensures Superseded(key, gaps)
  {
  }

  /** `row` was added for one of the first `n` gaps, which no loaded row matched. */
  predicate AddedFor(row: GapRow, rows: seq<GapRow>, rq: Request, gaps: seq<GapWindow>, n: nat)
    requires n <= |gaps|
  {
    exists g :: 0 <= g < n && row == NewRow(gaps[g]) && FindRow(rows, rq, GapKey(gaps[g]), |rows|).None?
  }

  lemma {:induction false} AddedAreNew(rows: seq<GapRow>, rq: Request, gaps: seq<GapWindow>, n: nat)
    requires n <= |gaps|
    ensures forall k :: 0 <= k < |Added(rows, rq, gaps, n)| ==> AddedFor(Added(rows, rq, gaps, n)[k], rows, rq, gaps, n)
  {
    if n > 0 {
      AddedAreNew(rows, rq, gaps, n - 1);
      var before := Added(rows, rq, gaps, n - 1);
      forall k | 0 <= k < |before|
        ensures AddedFor(before[k], rows, rq, gaps, n)
      {
        assert AddedFor(before[k], rows, rq, gaps, n - 1);
        var g :| 0 <= g < n - 1 && before[k] == NewRow(gaps[g]) && FindRow(rows, rq, GapKey(gaps[g]), |rows|).None?;
      }
      if FindRow(rows, rq, GapKey(gaps[n - 1]), |rows|).None? {
        assert AddedFor(NewRow(gaps[n - 1]), rows, rq, gaps, n);
      }
    }
  }

  predicate RowsAscend(rows: seq<GapRow>) {
    forall k, l :: 0 <= k < l < |rows| ==> rows[k].toTime <= rows[l].fromTime
  }

  lemma RowsAscendAppend(rows: seq<GapRow>, row: GapRow)
    requires RowsAscend(rows) && forall k :: 0 <= k < |rows| ==> rows[k].toTime <= row.fromTime
    ensures RowsAscend(rows + [row])
  {
  }

  lemma {:induction false} AddedAscend(rows: seq<GapRow>, rq: Request, gaps: seq<GapWindow>, n: nat)
    requires n <= |gaps| && Found(gaps, rq)
    ensures RowsAscend(Added(rows, rq, gaps, n))
  {
    hide FindRow, RowsAscend;
    if n == 0 {
      NoRowsAscend();
    } else {
      AddedAscend(rows, rq, gaps, n - 1);
      AddedAreNew(rows, rq, gaps, n - 1);
      var before := Added(rows, rq, gaps, n - 1);
      assert Added(rows, rq, gaps, n) ==
             if FindRow(rows, rq, GapKey(gaps[n - 1]), |rows|).None? then before + [NewRow(gaps[n - 1])] else before + [];
      assert before + [] == before;
      hide Added;
      forall k | 0 <= k < |before|
        ensures before[k].toTime <= gaps[n - 1].fromTime
      {
        assert AddedFor(before[k], rows, rq, gaps, n - 1);
        var g :| 0 <= g < n - 1 && before[k] == NewRow(gaps[g]) && FindRow(rows, rq, GapKey(gaps[g]), |rows|).None?;
        assert gaps[g].toTime <= gaps[n - 1].fromTime;
      }
      RowsAscendAppend(before, NewRow(gaps[n - 1]));
    }
  }

  lemma NoRowsAscend()
    ensures RowsAscend([])
  {
  }

  lemma FoundKeysAreUnique(gaps: seq<GapWindow>, rq: Request, g: nat)
    requires Found(gaps, rq) && g < |gaps|
    ensures FindGap(gaps, GapKey(gaps[g]), |gaps|) == Some(gaps[g])
    ensures forall h :: 0 <= h < |gaps| && h != g ==> !Overlap(GapKey(gaps[h]), GapKey(gaps[g]))
  {
    FindGapFinds(gaps, GapKey(gaps[g]), |gaps|);
    var r := FindGap(gaps, GapKey(gaps[g]), |gaps|);
    if r.Some? {
      var h :| 0 <= h < |gaps| && gaps[h] == r.value && GapKey(gaps[h]) == GapKey(gaps[g]);
      assert h == g;
    }
  }

  /** A surviving old row overlaps no gap just found, unless it is that very gap. */
  lemma SurvivorsAvoidGaps(rows: seq<GapRow>, rq: Request, gaps: seq<GapWindow>, i: nat, g: nat)
    requires rq.delta > 0 && Consistent(rows) && Found(gaps, rq) && Apart(rows, rq, gaps)
    requires i < |rows| && g < |gaps| && Live(Refresh(rows, rq, gaps, |gaps|, i))
    ensures RowKey(rows[i]) == GapKey(gaps[g]) || !Overlap(RowKey(rows[i]), GapKey(gaps[g]))
    ensures RowKey(rows[i]) == GapKey(gaps[g]) ==> FindRow(rows, rq, GapKey(gaps[g]), |rows|) == Some(i)
  {
    RefreshKeepsWindow(rows, rq, gaps, i);
    var key := RowKey(rows[i]);
    if Fetched(rows[i], rq) {
      ConsistentKeysAreDistinct(rows);
      DistinctRowsAreChosen(rows, rq, i);
      hide Refresh, IsFilled;
      if FindGap(gaps, key, |gaps|).Some? {
        FindGapFinds(gaps, key, |gaps|);
        var h :| 0 <= h < |gaps| && gaps[h] == FindGap(gaps, key, |gaps|).value && GapKey(gaps[h]) == key;
        FoundKeysAreUnique(gaps, rq, h);
        if h != g {
          assert !Overlap(GapKey(gaps[g]), GapKey(gaps[h]));
        }
      } else {
        if Overlap(GapKey(gaps[g]), key) {
          SupersededBy(key, gaps, g);
        }
      }
    }
  }

  lemma LiveResultRow(rows: seq<GapRow>, rq: Request, gaps: seq<GapWindow>, i: nat)
    requires rq.delta > 0 && i < |Reconciled(rows, rq, gaps)|
    ensures var r := Reconciled(rows, rq, gaps);
            r[i] == if i < |rows| then Refresh(rows, rq, gaps, |gaps|, i) else Added(rows, rq, gaps, |gaps|)[i - |rows|]
  {
  }

  lemma PairStaysDisjoint(rows: seq<GapRow>, rq: Request, gaps: seq<GapWindow>, i: nat, j: nat)
    requires rq.delta > 0 && Consistent(rows) && Found(gaps, rq) && Apart(rows, rq, gaps)
    requires i < j < |Reconciled(rows, rq, gaps)|
    requires Live(Reconciled(rows, rq, gaps)[i]) && Live(Reconciled(rows, rq, gaps)[j])
    ensures Disjoint(Reconciled(rows, rq, gaps)[i], Reconciled(rows, rq, gaps)[j])
  {
    LiveResultRow(rows, rq, gaps, i);
    LiveResultRow(rows, rq, gaps, j);
    AddedAreNew(rows, rq, gaps, |gaps|);
    AddedAscend(rows, rq, gaps, |gaps|);
    var added := Added(rows, rq, gaps, |gaps|);
    hide Reconciled, Added, Refresh, Found, Apart;
    if i < |rows| {
      RefreshKeepsWindow(rows, rq, gaps, i);
    }
    if j < |rows| {
      RefreshKeepsWindow(rows, rq, gaps, j);
      assert Disjoint(rows[i], rows[j]);
    } else {
      assert AddedFor(added[j - |rows|], rows, rq, gaps, |gaps|);
      var g :| 0 <= g < |gaps| && added[j - |rows|] == NewRow(gaps[g]) && FindRow(rows, rq, GapKey(gaps[g]), |rows|).None?;
      if i < |rows| {
        SurvivorsAvoidGaps(rows, rq, gaps, i, g);
      } else {
        assert added[i - |rows|].toTime <= added[j - |rows|].fromTime;
      }
    }
  }

  /** One run keeps the table consistent if the gaps found keep clear of the rows it does not load. */
  lemma ReconciliationKeepsConsistent(rows: seq<GapRow>, rq: Request, gaps: seq<GapWindow>)
    requires rq.delta > 0 && Consistent(rows) && Found(gaps, rq) && Apart(rows, rq, gaps)
    ensures Consistent(Reconciled(rows, rq, gaps))
  {
    var r := Reconciled(rows, rq, gaps);
    forall i | 0 <= i < |r| && Live(r[i])
      ensures r[i].fromTime < r[i].toTime
    {
      LiveResultRow(rows, rq, gaps, i);
      if i < |rows| {
        RefreshKeepsWindow(rows, rq, gaps, i);
      } else {
        AddedAreNew(rows, rq, gaps, |gaps|);
        assert AddedFor(r[i], rows, rq, gaps, |gaps|);
        var g :| 0 <= g < |gaps| && Added(rows, rq, gaps, |gaps|)[i - |rows|] == NewRow(gaps[g]);
      }
    }
    forall i, j | 0 <= i < j < |r| && Live(r[i]) && Live(r[j])
      ensures Disjoint(r[i], r[j])
    {
      PairStaysDisjoint(rows, rq, gaps, i, j);
    }
  }

  // ----- what the table says after a run -----

  lemma {:induction false} NewGapIsAdded(rows: seq<GapRow>, rq: Request, gaps: seq<GapWindow>, n: nat, g: nat) returns (k: nat)
    requires g < n <= |gaps| && FindRow(rows, rq, GapKey(gaps[g]), |rows|).None?
    ensures k < |Added(rows, rq, gaps, n)| && Added(rows, rq, gaps, n)[k] == NewRow(gaps[g])
  {
    if g == n - 1 {
      k := |Added(rows, rq, gaps, n - 1)|;
    } else {
      k := NewGapIsAdded(rows, rq, gaps, n - 1, g);
    }
  }

  predicate Mirrors(row: GapRow, gap: GapWindow) {
    Live(row) && RowKey(row) == GapKey(gap) && row.expectedCount == gap.expectedCount && row.missingCount == gap.missingCount
  }

  /** Every gap just found has a live row with its window and its counts. */
  lemma EveryGapHasItsRow(rows: seq<GapRow>, rq: Request, gaps: seq<GapWindow>, g: nat) returns (at: nat)
    requires rq.delta > 0 && Found(gaps, rq) && g < |gaps|
    ensures at < |Reconciled(rows, rq, gaps)| && Mirrors(Reconciled(rows, rq, gaps)[at], gaps[g])
  {
    var key := GapKey(gaps[g]);
    FindRowFinds(rows, rq, key, |rows|);
    var old' := FindRow(rows, rq, key, |rows|);
    if old'.Some? {
      at := old'.value;
      FoundKeysAreUnique(gaps, rq, g);
      hide FindRow, FindGap, Added;
    } else {
      var k := NewGapIsAdded(rows, rq, gaps, |gaps|, g);
      at := |rows| + k;
    }
  }

  /** Otherwise the run leaves two overlapping rows: the one it did not load and that of the gap. */
  lemma OverlapBreaksConsistency(rows: seq<GapRow>, rq: Request, gaps: seq<GapWindow>, i: nat, g: nat)
    requires rq.delta > 0 && Found(gaps, rq) && i < |rows| && g < |gaps|
    requires Live(rows[i]) && !Fetched(rows[i], rq) && Overlap(RowKey(rows[i]), GapKey(gaps[g]))
    ensures !Consistent(Reconciled(rows, rq, gaps))
  {
    var r := Reconciled(rows, rq, gaps);
    var at := EveryGapHasItsRow(rows, rq, gaps, g);
    assert r[i] == rows[i];
    assert gaps[g].fromTime < gaps[g].toTime;
    hide Reconciled, Added, Refresh, Found;
    if Consistent(r) {
      LiveRowsAreDisjoint(r, i, at);
    }
  }

  // ----- running twice -----

  /** A run never gives two live rows the same key, not even rows it does not load. */
  lemma ReconciliationKeepsKeysDistinct(rows: seq<GapRow>, rq: Request, gaps: seq<GapWindow>)
    requires rq.delta > 0 && DistinctKeys(rows) && Found(gaps, rq)
    ensures DistinctKeys(Reconciled(rows, rq, gaps))
  {
    var r := Reconciled(rows, rq, gaps);
    AddedAscend(rows, rq, gaps, |gaps|);
    AddedAreNew(rows, rq, gaps, |gaps|);
    var added := Added(rows, rq, gaps, |gaps|);
    forall i, j | 0 <= i < j < |r| && Live(r[i]) && Live(r[j])
      ensures RowKey(r[i]) != RowKey(r[j])
    {
      LiveResultRow(rows, rq, gaps, i);
      LiveResultRow(rows, rq, gaps, j);
      hide Reconciled, Added, Refresh, FindGap, FindRow, RowsAscend;
      if i < |rows| {
        RefreshKeepsWindow(rows, rq, gaps, i);
      }
      if j < |rows| {
        RefreshKeepsWindow(rows, rq, gaps, j);
      } else {
        assert AddedFor(added[j - |rows|], rows, rq, gaps, |gaps|);
        if i < |rows| {
          AddedKeyIsNew(rows, rq, gaps, added[j - |rows|], i);
        } else {
          AddedKeysDiffer(rows, rq, gaps, added, i - |rows|, j - |rows|);
        }
      }
    }
  }

  lemma AddedKeyIsNew(rows: seq<GapRow>, rq: Request, gaps: seq<GapWindow>, row: GapRow, i: nat)
    requires Found(gaps, rq) && AddedFor(row, rows, rq, gaps, |gaps|) && i < |rows| && Live(rows[i])
    ensures RowKey(rows[i]) != RowKey(row)
  {
    var g :| 0 <= g < |gaps| && row == NewRow(gaps[g]) && FindRow(rows, rq, GapKey(gaps[g]), |rows|).None?;
    FindRowFinds(rows, rq, GapKey(gaps[g]), |rows|);
  }

  lemma AddedKeysDiffer(rows: seq<GapRow>, rq: Request, gaps: seq<GapWindow>, added: seq<GapRow>, k: nat, l: nat)
    requires Found(gaps, rq) && RowsAscend(added) && k < l < |added|
    requires AddedFor(added[k], rows, rq, gaps, |gaps|)
    ensures RowKey(added[k]) != RowKey(added[l])
  {
  }

  lemma ResultRowOfOld(rows: seq<GapRow>, rq: Request, gaps: seq<GapWindow>, i: nat, later: Request)
    requires rq.delta > 0 && DistinctKeys(rows) && Found(gaps, rq)
    requires later == rq.(now := later.now) && i < |Reconciled(rows, rq, gaps)|
    ensures var r := Reconciled(rows, rq, gaps);
            Refresh(r, later, gaps, |gaps|, i) == r[i]
  {
    var r := Reconciled(rows, rq, gaps);
    ReconciliationKeepsKeysDistinct(rows, rq, gaps);
    LiveResultRow(rows, rq, gaps, i);
    if Fetched(r[i], later) {
      DistinctRowsAreChosen(r, later, i);
      if i < |rows| {
        RefreshKeepsWindow(rows, rq, gaps, i);
        DistinctRowsAreChosen(rows, rq, i);
        assert IsFilled(r[i], later) == IsFilled(rows[i], rq);
        hide IsFilled, Superseded, FindRow, FindGap, Added, Reconciled;
      } else {
        AddedAreNew(rows, rq, gaps, |gaps|);
        assert AddedFor(r[i], rows, rq, gaps, |gaps|);
        var g :| 0 <= g < |gaps| && r[i] == NewRow(gaps[g]);
        FoundKeysAreUnique(gaps, rq, g);
        hide IsFilled, Superseded, FindRow, FindGap, Added, Reconciled;
      }
    }
  }

  lemma {:induction false} NothingLeftToAdd(rows: seq<GapRow>, rq: Request, gaps: seq<GapWindow>, n: nat)
    requires n <= |gaps|
    requires forall g :: 0 <= g < n ==> FindRow(rows, rq, GapKey(gaps[g]), |rows|).Some?
    ensures Added(rows, rq, gaps, n) == []
  {
    if n > 0 {
      NothingLeftToAdd(rows, rq, gaps, n - 1);
    }
  }

  /** A second run on unchanged candles, at any other time, changes nothing. */
  lemma RepeatChangesNothing(rows: seq<GapRow>, rq: Request, gaps: seq<GapWindow>, later: Request)
    requires rq.delta > 0 && DistinctKeys(rows) && Found(gaps, rq)
    requires later == rq.(now := later.now)
    ensures Reconciled(Reconciled(rows, rq, gaps), later, gaps) == Reconciled(rows, rq, gaps)
  {
    var r := Reconciled(rows, rq, gaps);
    forall g | 0 <= g < |gaps|
      ensures FindRow(r, later, GapKey(gaps[g]), |r|).Some?
    {
      var at := EveryGapHasItsRow(rows, rq, gaps, g);
      FindRowFinds(r, later, GapKey(gaps[g]), |r|);
      assert Fetched(r[at], later);
    }
    NothingLeftToAdd(r, later, gaps, |gaps|);
    forall i | 0 <= i < |r|
      ensures Refresh(r, later, gaps, |gaps|, i) == r[i]
    {
      ResultRowOfOld(rows, rq, gaps, i, later);
    }
    hide Refresh;
  }
}
