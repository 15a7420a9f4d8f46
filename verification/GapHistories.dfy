/** The gap rows of one series over any sequence of reconciliations. Its bar length and market hours
    are fixed, and a final candle, once stored, stays. */
module GapHistories {
  import opened Wrappers
  import opened Arithmetic
  import opened Ordering
  import opened Coverage
  import opened MissingCounts
  import opened GapStore
  import opened GapRuns

  /** What may happen to the table: a reconciliation, or an operator ignoring an open gap. */
  datatype Event = Run(rq: Request) | Ignore(row: nat)

  predicate Sound(e: Event) { e.Run? ==> e.rq.delta > 0 }

  function Apply(rows: seq<GapRow>, e: Event): seq<GapRow>
    requires Sound(e)
  {
    match e
    case Run(rq) => Reconciled(rows, rq, Scan(rq))
    case Ignore(i) => if i < |rows| && rows[i].status == Open then rows[i := rows[i].(status := Ignored)] else rows
  }

  function ApplyAll(events: seq<Event>): seq<GapRow>
    requires forall k :: 0 <= k < |events| ==> Sound(events[k])
  {
    if events == [] then [] else Apply(ApplyAll(events[..|events| - 1]), events[|events| - 1])
  }

  // ----- one row a key, always -----

  /** Whatever the ranges and however the candles change, no two live rows ever share a key. */
  lemma {:induction false} KeysStayDistinct(events: seq<Event>)
    requires forall k :: 0 <= k < |events| ==> Sound(events[k])
    ensures DistinctKeys(ApplyAll(events))
  {
    if events != [] {
      hide Reconciled, Scan;
      KeysStayDistinct(events[..|events| - 1]);
      var e := events[|events| - 1];
      if e.Run? {
        ScanFinds(e.rq);
        ReconciliationKeepsKeysDistinct(ApplyAll(events[..|events| - 1]), e.rq, Scan(e.rq));
      }
    }
  }

  /** Idempotence in every reachable table: a run repeated on unchanged candles changes no row. */
  lemma SecondRunChangesNothing(events: seq<Event>, rq: Request, later: Request)
    requires (forall k :: 0 <= k < |events| ==> Sound(events[k])) && rq.delta > 0 && later == rq.(now := later.now)
    ensures var once := Apply(ApplyAll(events), Run(rq));
            Apply(once, Run(later)) == once
  {
    KeysStayDistinct(events);
    ScanFinds(rq);
    RepeatChangesNothing(ApplyAll(events), rq, Scan(rq), later);
  }

  // ----- one series -----

  ghost predicate AllKept(earlier: seq<int>, later: seq<int>) { forall y :: Has(earlier, y) ==> Has(later, y) }

  /** All runs are over one series whose candles are only ever added to, up to `candles`. */
  ghost predicate OneSeries(events: seq<Event>, candles: seq<int>, delta: int, open: int -> bool) {
    && delta > 0
    && (forall k :: 0 <= k < |events| && events[k].Run? ==>
          events[k].rq.delta == delta && events[k].rq.open == open && AllKept(events[k].rq.candles, candles))
    && (forall j, k :: 0 <= j < k < |events| && events[j].Run? && events[k].Run? ==>
          AllKept(events[j].rq.candles, events[k].rq.candles))
  }

  /** The market opens at `a`, on the bar grid of a stored candle before it, with another stored
      candle after it: a gap window can start there without following a stored candle. */
  ghost predicate Reopening(candles: seq<int>, delta: int, open: int -> bool, a: int) {
    open(a) && !open(a - delta)
    && exists q, c :: Has(candles, q) && Has(candles, c) && q < a < c && OnGrid(q, delta, a)
  }

  /** What a caller can tell from the stored candles, the market hours and the range, before the run:
      a missing bar of the range is still unfinished at a reopening of the market beyond the range. */
  ghost predicate Collides(rq: Request)
    requires rq.delta > 0
  {
    exists s, a :: MissingSlot(Sorted(StoredTimes(rq)), rq.delta, rq.open, s)
                   && Reopening(rq.candles, rq.delta, rq.open, a) && rq.requestedTo <= a < s + rq.delta
  }

  /** A row starts one bar after a stored candle, or at a reopening of the market. */
  ghost predicate Origin(row: GapRow, candles: seq<int>, delta: int, open: int -> bool) {
    Has(candles, row.fromTime - delta) || Reopening(candles, delta, open, row.fromTime)
  }

  ghost predicate Origins(rows: seq<GapRow>, candles: seq<int>, delta: int, open: int -> bool) {
    forall i :: 0 <= i < |rows| ==> Origin(rows[i], candles, delta, open)
  }

  lemma OriginStays(row: GapRow, earlier: seq<int>, later: seq<int>, delta: int, open: int -> bool)
    requires Origin(row, earlier, delta, open) && AllKept(earlier, later)
    ensures Origin(row, later, delta, open)
  {
    if !Has(earlier, row.fromTime - delta) {
      var q, c :| Has(earlier, q) && Has(earlier, c) && q < row.fromTime < c && OnGrid(q, delta, row.fromTime);
      assert Has(later, q) && Has(later, c);
    }
  }

  // ----- where a window can start -----

  lemma PairGapStarts(previous: int, current: int, delta: int, open: int -> bool, i: nat)
    requires delta > 0 && i < |PairGaps(previous, current, delta, open)|
    ensures var a := PairGaps(previous, current, delta, open)[i].fromTime;
            && previous < a < current && open(a) && OnGrid(previous, delta, a)
            && (a - delta == previous || !open(a - delta))
  {
    var gaps := PairGaps(previous, current, delta, open);
    var w := gaps[i];
    PairGapsAreMaximal(previous, current, delta, open, i);
    PairGapsStayInside(previous, current, delta, open);
    PairGapsAreExact(previous, current, delta, open, w.fromTime);
    hide PairGaps;
    assert WellFormed(w, delta);
    assert Slot(w.fromTime, delta, 0) == w.fromTime && InWindow(w, delta, w.fromTime);
    assert Covered(gaps, delta, w.fromTime);
    SlotStep(previous, delta, w.fromTime);
  }

  ghost predicate StartsRight(w: GapWindow, ordered: seq<int>, delta: int, open: int -> bool) {
    exists k :: 0 <= k < |ordered| - 1 && ordered[k] < w.fromTime < ordered[k + 1] && open(w.fromTime)
                && OnGrid(ordered[k], delta, w.fromTime) && (w.fromTime - delta == ordered[k] || !open(w.fromTime - delta))
  }

  ghost predicate AllStartRight(gaps: seq<GapWindow>, ordered: seq<int>, delta: int, open: int -> bool) {
    forall g :: 0 <= g < |gaps| ==> StartsRight(gaps[g], ordered, delta, open)
  }

  lemma StartsRightLonger(w: GapWindow, ordered: seq<int>, delta: int, open: int -> bool)
    requires |ordered| >= 1 && StartsRight(w, ordered[..|ordered| - 1], delta, open)
    ensures StartsRight(w, ordered, delta, open)
  {
    var front := ordered[..|ordered| - 1];
    var k :| 0 <= k < |front| - 1 && front[k] < w.fromTime < front[k + 1] && open(w.fromTime)
             && OnGrid(front[k], delta, w.fromTime) && (w.fromTime - delta == front[k] || !open(w.fromTime - delta));
    assert ordered[k] == front[k] && ordered[k + 1] == front[k + 1];
  }

  lemma {:induction false} GapStarts(ordered: seq<int>, delta: int, open: int -> bool)
    requires delta > 0
    ensures AllStartRight(GapsOf(ordered, delta, open), ordered, delta, open)
  {
    if |ordered| >= 2 {
      var n := |ordered|;
      var front := ordered[..n - 1];
      GapStarts(front, delta, open);
      var a := GapsOf(front, delta, open);
      var b := PairGaps(ordered[n - 2], ordered[n - 1], delta, open);
      var all := GapsOf(ordered, delta, open);
      assert all == a + b;
      hide GapsOf, PairGaps, OnGrid;
      forall g | 0 <= g < |all|
        ensures StartsRight(all[g], ordered, delta, open)
      {
        if g < |a| {
          StartsRightLonger(all[g], ordered, delta, open);
        } else {
          PairGapStarts(ordered[n - 2], ordered[n - 1], delta, open, g - |a|);
          assert ordered[n - 2] < all[g].fromTime < ordered[n - 2 + 1];
        }
      }
    }
  }

  lemma RightStartIsOrigin(w: GapWindow, ordered: seq<int>, candles: seq<int>, delta: int, open: int -> bool)
    requires StartsRight(w, ordered, delta, open) && AllKept(ordered, candles)
    ensures Origin(NewRow(w), candles, delta, open)
  {
    hide OnGrid;
    var k :| 0 <= k < |ordered| - 1 && ordered[k] < w.fromTime < ordered[k + 1] && open(w.fromTime)
             && OnGrid(ordered[k], delta, w.fromTime) && (w.fromTime - delta == ordered[k] || !open(w.fromTime - delta));
    assert Has(ordered, ordered[k]) && Has(ordered, ordered[k + 1]);
  }

  lemma ScannedTimesAreStored(rq: Request)
    ensures AllKept(Sorted(StoredTimes(rq)), rq.candles)
  {
    SortedIsSorted(StoredTimes(rq));
    hide Sorted;
    forall y | Has(Sorted(StoredTimes(rq)), y)
      ensures Has(rq.candles, y)
    {
      WithinBounds(rq.candles, rq.requestedFrom, rq.requestedTo, y);
    }
  }

  lemma ScanStarts(rq: Request, g: nat)
    requires rq.delta > 0 && g < |Scan(rq)|
    ensures Origin(NewRow(Scan(rq)[g]), rq.candles, rq.delta, rq.open)
  {
    GapStarts(Sorted(StoredTimes(rq)), rq.delta, rq.open);
    ScannedTimesAreStored(rq);
    hide GapsOf, Sorted, StartsRight, AllKept, Origin;
    RightStartIsOrigin(Scan(rq)[g], Sorted(StoredTimes(rq)), rq.candles, rq.delta, rq.open);
  }

  lemma ReconciliationKeepsOrigins(rows: seq<GapRow>, rq: Request)
    requires rq.delta > 0 && Origins(rows, rq.candles, rq.delta, rq.open)
    ensures Origins(Reconciled(rows, rq, Scan(rq)), rq.candles, rq.delta, rq.open)
  {
    var gaps := Scan(rq);
    var r := Reconciled(rows, rq, gaps);
    AddedAreNew(rows, rq, gaps, |gaps|);
    var added := Added(rows, rq, gaps, |gaps|);
    forall i | 0 <= i < |r|
      ensures Origin(r[i], rq.candles, rq.delta, rq.open)
    {
      LiveResultRow(rows, rq, gaps, i);
      hide Reconciled, Added, Refresh, Scan, Reopening;
      if i < |rows| {
        RefreshKeepsWindow(rows, rq, gaps, i);
        assert Origin(rows[i], rq.candles, rq.delta, rq.open);
      } else {
        assert AddedFor(added[i - |rows|], rows, rq, gaps, |gaps|);
        var g :| 0 <= g < |gaps| && added[i - |rows|] == NewRow(gaps[g]);
        ScanStarts(rq, g);
      }
    }
  }

  lemma {:induction false} HistoryOrigins(events: seq<Event>, candles: seq<int>, delta: int, open: int -> bool)
    requires OneSeries(events, candles, delta, open)
    ensures forall k :: 0 <= k < |events| ==> Sound(events[k])
    ensures Origins(ApplyAll(events), candles, delta, open)
  {
    if events != [] {
      hide Reconciled, Scan, Reopening, Origin;
      var front := events[..|events| - 1];
      var e := events[|events| - 1];
      if e.Run? {
        assert OneSeries(front, e.rq.candles, delta, open);
        HistoryOrigins(front, e.rq.candles, delta, open);
        ReconciliationKeepsOrigins(ApplyAll(front), e.rq);
        var rows := ApplyAll(events);
        forall i | 0 <= i < |rows|
          ensures Origin(rows[i], candles, delta, open)
        {
          OriginStays(rows[i], e.rq.candles, candles, delta, open);
        }
      } else {
        assert OneSeries(front, candles, delta, open);
        HistoryOrigins(front, candles, delta, open);
        IgnoringKeepsOrigins(ApplyAll(front), e.row, candles, delta, open);
      }
    }
  }

  lemma IgnoringKeepsOrigins(rows: seq<GapRow>, i: nat, candles: seq<int>, delta: int, open: int -> bool)
    requires Origins(rows, candles, delta, open)
    ensures Origins(Apply(rows, Ignore(i)), candles, delta, open)
  {
  }

  // ----- disjoint rows: the condition, and that it is enough -----

  /** A row that starts one bar after a stored candle is never in the way of a gap found before it. */
  lemma StoredNeighbourInterrupts(rq: Request, s: int, a: int)
    requires rq.delta > 0 && MissingSlot(Sorted(StoredTimes(rq)), rq.delta, rq.open, s)
    requires rq.requestedTo <= a < s + rq.delta
    ensures !Has(rq.candles, a - rq.delta)
  {
    var times := Sorted(StoredTimes(rq));
    SortedIsSorted(StoredTimes(rq));
    var k :| 0 <= k < |times| - 1 && MissingIn(times[k], times[k + 1], rq.delta, rq.open, s);
    SlotsStartAtBase(times[k] + rq.delta, rq.delta, s);
    var q := a - rq.delta;
    assert Has(times, times[k]) && Has(times, times[k + 1]);
    WithinBounds(rq.candles, rq.requestedFrom, rq.requestedTo, times[k]);
    WithinBounds(rq.candles, rq.requestedFrom, rq.requestedTo, times[k + 1]);
    WithinBounds(rq.candles, rq.requestedFrom, rq.requestedTo, q);
    hide Sorted, MissingIn;
    if Has(rq.candles, q) {
      assert Has(times, q);
      NothingBetween(times, k, q);
    }
  }

  lemma NothingBetween(times: seq<int>, k: nat, q: int)
    requires Ascending(times) && k + 1 < |times| && Has(times, q)
    ensures q <= times[k] || times[k + 1] <= q
  {
  }

  lemma LastSlotIsMissing(rq: Request, g: nat)
    requires rq.delta > 0 && g < |Scan(rq)|
    ensures MissingSlot(Sorted(StoredTimes(rq)), rq.delta, rq.open, Scan(rq)[g].toTime - rq.delta)
  {
    var w := Scan(rq)[g];
    var s := w.toTime - rq.delta;
    GapScanIsExact(StoredTimes(rq), rq.delta, rq.open, s);
    assert WellFormed(w, rq.delta);
    SlotNext(w.fromTime, rq.delta, w.missingCount - 1);
    assert Slot(w.fromTime, rq.delta, w.missingCount - 1) == s;
    assert InWindow(w, rq.delta, s);
    assert Covered(Scan(rq), rq.delta, s);
  }

  lemma NoCollisionKeepsApart(rows: seq<GapRow>, rq: Request)
    requires rq.delta > 0 && Origins(rows, rq.candles, rq.delta, rq.open) && !Collides(rq)
    ensures Apart(rows, rq, Scan(rq))
  {
    var gaps := Scan(rq);
    ScanFinds(rq);
    forall i, g | 0 <= i < |rows| && 0 <= g < |gaps| && Live(rows[i]) && !Fetched(rows[i], rq)
      ensures !Overlap(RowKey(rows[i]), GapKey(gaps[g]))
    {
      LastSlotIsMissing(rq, g);
      var s, a := gaps[g].toTime - rq.delta, rows[i].fromTime;
      assert Origin(rows[i], rq.candles, rq.delta, rq.open);
      hide Scan, MissingSlot, Reopening;
      if Overlap(RowKey(rows[i]), GapKey(gaps[g])) {
        StoredNeighbourInterrupts(rq, s, a);
      }
    }
  }

  /** A run that does not collide keeps every table its history can have produced consistent. */
  lemma QuietRunKeepsConsistent(events: seq<Event>, rq: Request)
    requires OneSeries(events, rq.candles, rq.delta, rq.open) && !Collides(rq)
    ensures forall k :: 0 <= k < |events| ==> Sound(events[k])
    ensures Consistent(ApplyAll(events)) ==> Consistent(Apply(ApplyAll(events), Run(rq)))
  {
    HistoryOrigins(events, rq.candles, rq.delta, rq.open);
    ScanFinds(rq);
    hide Reconciled, Scan, Collides, Origins, Apart;
    NoCollisionKeepsApart(ApplyAll(events), rq);
    if Consistent(ApplyAll(events)) {
      ReconciliationKeepsConsistent(ApplyAll(events), rq, Scan(rq));
    }
  }

  /** Over any sequence of runs that do not collide, of any ranges, with candles added in between and
      gaps ignored by operators, live gap rows never overlap. */
  lemma {:induction false} TableStaysConsistent(events: seq<Event>, candles: seq<int>, delta: int, open: int -> bool)
    requires OneSeries(events, candles, delta, open)
    requires forall k :: 0 <= k < |events| && events[k].Run? ==> !Collides(events[k].rq)
    ensures forall k :: 0 <= k < |events| ==> Sound(events[k])
    ensures Consistent(ApplyAll(events))
  {
    if events != [] {
      hide Reconciled, Scan, Collides;
      var front := events[..|events| - 1];
      var e := events[|events| - 1];
      assert OneSeries(front, candles, delta, open);
      TableStaysConsistent(front, candles, delta, open);
      if e.Run? {
        assert OneSeries(front, e.rq.candles, e.rq.delta, e.rq.open);
        QuietRunKeepsConsistent(front, e.rq);
      }
    }
  }

  /** After a run that does not collide, the only live row that overlaps a gap just found is the
      gap's own. */
  lemma OnlyItsOwnRowOverlapsAGap(events: seq<Event>, rq: Request, g: nat, i: nat, at: nat)
    requires OneSeries(events, rq.candles, rq.delta, rq.open) && !Collides(rq) && g < |Scan(rq)|
    requires (forall k :: 0 <= k < |events| ==> Sound(events[k])) && Consistent(ApplyAll(events))
    requires var r := Apply(ApplyAll(events), Run(rq));
             && i < |r| && Live(r[i]) && Overlap(RowKey(r[i]), GapKey(Scan(rq)[g]))
             && at < |r| && Mirrors(r[at], Scan(rq)[g])
    ensures i == at
  {
    QuietRunKeepsConsistent(events, rq);
    ScanFinds(rq);
    hide Reconciled, Consistent, Collides, OneSeries;
    if i != at {
      LiveRowsAreDisjoint(Apply(ApplyAll(events), Run(rq)), i, at);
    }
  }

  /** In a market that never closes no run collides: the rows are disjoint without any condition. */
  lemma OpenMarketStaysConsistent(events: seq<Event>, candles: seq<int>, delta: int)
    requires OneSeries(events, candles, delta, AlwaysOpen())
    ensures forall k :: 0 <= k < |events| ==> Sound(events[k])
    ensures Consistent(ApplyAll(events))
  {
    TableStaysConsistent(events, candles, delta, AlwaysOpen());
  }

  /** Two things a caller can arrange, each enough: the candles of the range lie on one grid, or the
      last of them closes inside the range. */
  lemma GridOrClosedRangeDoesNotCollide(rq: Request)
    requires rq.delta > 0
    requires var times := Sorted(StoredTimes(rq));
             times != [] ==> OneGrid(times, rq.delta) || times[|times| - 1] + rq.delta <= rq.requestedTo
    ensures !Collides(rq)
  {
    hide MissingSlot, Reopening, Sorted, OneGrid;
    forall s | MissingSlot(Sorted(StoredTimes(rq)), rq.delta, rq.open, s)
      ensures s + rq.delta <= rq.requestedTo
    {
      MissingSlotEndsInside(rq, s);
    }
  }

  lemma MissingSlotEndsInside(rq: Request, s: int)
    requires rq.delta > 0 && MissingSlot(Sorted(StoredTimes(rq)), rq.delta, rq.open, s)
    requires var times := Sorted(StoredTimes(rq));
             times != [] ==> OneGrid(times, rq.delta) || times[|times| - 1] + rq.delta <= rq.requestedTo
    ensures s + rq.delta <= rq.requestedTo
  {
    hide Sorted;
    var times := Sorted(StoredTimes(rq));
    var k :| 0 <= k < |times| - 1 && MissingIn(times[k], times[k + 1], rq.delta, rq.open, s);
    EndsInRange(rq);
    hide Ascending;
    if OneGrid(times, rq.delta) {
      assert (times[k + 1] - times[k]) % rq.delta == 0;
      SlotEndsBefore(times[k], times[k + 1], rq.delta, s);
    }
  }

  lemma GridReach(width: int, delta: int, e: nat)
    requires delta > 0 && width % delta == 0 && delta + e * delta < width + delta
    ensures delta + e * delta <= width
  {
    var q := width / delta;
    Quotient(width, delta);
    SumTimes(e, 1, delta);
    if e + 1 > q {
      TimesMonotone(q, e, delta);
    } else {
      TimesMonotone(e + 1, q, delta);
    }
  }

  lemma SlotOfGridEnds(previous: int, current: int, delta: int, k: nat)
    requires delta > 0 && (current - previous) % delta == 0 && Slot(previous + delta, delta, k) < current
    ensures Slot(previous + delta, delta, k) + delta <= current
  {
    SumTimes(k, 1, delta);
    GridReach(current - previous, delta, k + 1);
  }

  /** Between two times on one grid a slot before the second ends no later than it. */
  lemma SlotEndsBefore(previous: int, current: int, delta: int, s: int)
    requires delta > 0 && (current - previous) % delta == 0 && s < current && OnGrid(previous + delta, delta, s)
    ensures s + delta <= current
  {
    hide Slot;
    var k: nat :| Slot(previous + delta, delta, k) == s;
    SlotOfGridEnds(previous, current, delta, k);
  }

  // ----- disjoint rows: the condition is exact -----

  /** The run over just the two candles around a reopening. */
  function Surrounding(q: int, c: int, delta: int, open: int -> bool): Request {
    Request([q, c], delta, open, q, c + 1, 0)
  }

  lemma WithinOneMore(candles: seq<int>, last: int, low: int, high: int)
    ensures Within(candles + [last], low, high) == Within(candles, low, high) + if low <= last < high then [last] else []
  {
    assert (candles + [last])[..|candles|] == candles;
  }

  lemma TwoCandlesSorted(q: int, c: int)
    requires q < c
    ensures Within([q, c], q, c + 1) == [q, c] && Sorted([q, c]) == [q, c]
  {
    WithinOneMore([], q, q, c + 1);
    WithinOneMore([q], c, q, c + 1);
    assert [] + [q] == [q] && [q] + [c] == [q, c];
    AscendingIsSorted([q, c]);
  }

  lemma SurroundingScan(q: int, c: int, delta: int, open: int -> bool)
    requires q < c && delta > 0
    ensures Scan(Surrounding(q, c, delta, open)) == PairGaps(q, c, delta, open)
  {
    TwoCandlesSorted(q, c);
    hide Sorted, Within, PairGaps;
    assert [q, c][..1] == [q];
    assert GapsOf([q], delta, open) == [];
    assert [] + PairGaps(q, c, delta, open) == PairGaps(q, c, delta, open);
  }

  /** At a reopening between two candles, a window of the pair starts. */
  lemma WindowAtReopening(q: int, c: int, delta: int, open: int -> bool, a: int) returns (g: nat)
    requires delta > 0 && q < a < c && OnGrid(q, delta, a) && open(a) && !open(a - delta)
    ensures g < |PairGaps(q, c, delta, open)| && PairGaps(q, c, delta, open)[g].fromTime == a
  {
    var gaps := PairGaps(q, c, delta, open);
    SlotStep(q, delta, a);
    PairGapsAreExact(q, c, delta, open, a);
    PairGapsAreExact(q, c, delta, open, a - delta);
    hide PairGaps;
    g :| 0 <= g < |gaps| && InWindow(gaps[g], delta, a);
    if gaps[g].fromTime != a {
      EarlierSlotOfWindow(gaps[g], delta, a);
    }
  }

  lemma EarlierSlotOfWindow(w: GapWindow, delta: int, a: int)
    requires InWindow(w, delta, a) && w.fromTime != a
    ensures InWindow(w, delta, a - delta)
  {
    var k: nat :| k < w.missingCount && Slot(w.fromTime, delta, k) == a;
    SlotNext(w.fromTime, delta, k - 1);
    assert Slot(w.fromTime, delta, k - 1) == a - delta;
  }

  /** The first run leaves a row that starts at the reopening, in a consistent table. */
  lemma RowAtReopening(q: int, c: int, delta: int, open: int -> bool, a: int) returns (i: nat)
    requires delta > 0 && q < a < c && OnGrid(q, delta, a) && open(a) && !open(a - delta)
    ensures var rows := ApplyAll([Run(Surrounding(q, c, delta, open))]);
            Consistent(rows) && i < |rows| && Live(rows[i]) && rows[i].fromTime == a && a < rows[i].toTime
  {
    var rq := Surrounding(q, c, delta, open);
    var gaps := Scan(rq);
    assert [Run(rq)][..0] == [];
    ScanFinds(rq);
    SurroundingScan(q, c, delta, open);
    var g := WindowAtReopening(q, c, delta, open, a);
    hide Scan, Reconciled;
    assert ApplyAll([Run(rq)]) == Reconciled([], rq, gaps);
    ReconciliationKeepsConsistent([], rq, gaps);
    i := EveryGapHasItsRow([], rq, gaps, g);
  }

  /** The gap that is unfinished at the reopening overlaps that row, which lies beyond the range. */
  lemma GapMeetsRow(rows: seq<GapRow>, rq: Request, i: nat, s: int)
    requires rq.delta > 0 && i < |rows| && Live(rows[i]) && rows[i].fromTime < rows[i].toTime
    requires MissingSlot(Sorted(StoredTimes(rq)), rq.delta, rq.open, s)
    requires rq.requestedTo <= rows[i].fromTime < s + rq.delta
    ensures !Consistent(Reconciled(rows, rq, Scan(rq)))
  {
    var gaps := Scan(rq);
    ScanFinds(rq);
    GapScanIsExact(StoredTimes(rq), rq.delta, rq.open, s);
    assert Covered(gaps, rq.delta, s);
    var g :| 0 <= g < |gaps| && InWindow(gaps[g], rq.delta, s);
    assert WellFormed(gaps[g], rq.delta);
    var k: nat :| k < gaps[g].missingCount && Slot(gaps[g].fromTime, rq.delta, k) == s;
    SlotsAreMonotone(gaps[g].fromTime, rq.delta, k, gaps[g].missingCount);
    hide Scan, Reconciled, InWindow, MissingSlot, Covered, Slot;
    OverlapBreaksConsistency(rows, rq, gaps, i, g);
  }

  lemma SurroundingIsOfSeries(candles: seq<int>, q: int, c: int, delta: int, open: int -> bool)
    requires delta > 0 && Has(candles, q) && Has(candles, c)
    ensures OneSeries([Run(Surrounding(q, c, delta, open))], candles, delta, open)
  {
    assert forall y :: Has([q, c], y) ==> y == q || y == c;
  }

  /** The history that leads to the collision. */
  lemma CollisionIsReached(rq: Request) returns (events: seq<Event>)
    requires rq.delta > 0 && Collides(rq)
    ensures OneSeries(events, rq.candles, rq.delta, rq.open)
    ensures forall k :: 0 <= k < |events| ==> Sound(events[k])
    ensures Consistent(ApplyAll(events)) && !Consistent(Apply(ApplyAll(events), Run(rq)))
  {
    hide MissingSlot, OnGrid, Reconciled, Scan, Sorted, Has, OneSeries, ApplyAll, Consistent;
    var s, a :| MissingSlot(Sorted(StoredTimes(rq)), rq.delta, rq.open, s)
                && Reopening(rq.candles, rq.delta, rq.open, a) && rq.requestedTo <= a < s + rq.delta;
    var q, c :| Has(rq.candles, q) && Has(rq.candles, c) && q < a < c && OnGrid(q, rq.delta, a);
    events := [Run(Surrounding(q, c, rq.delta, rq.open))];
    SurroundingIsOfSeries(rq.candles, q, c, rq.delta, rq.open);
    var i := RowAtReopening(q, c, rq.delta, rq.open, a);
    GapMeetsRow(ApplyAll(events), rq, i, s);
  }

  /** Every history of the series leaves a table that stays consistent through this run. */
  ghost predicate SafeAfterEveryHistory(rq: Request)
    requires rq.delta > 0
  {
    forall events ::
      (OneSeries(events, rq.candles, rq.delta, rq.open) && (forall k :: 0 <= k < |events| ==> Sound(events[k]))
       && Consistent(ApplyAll(events))) ==> Consistent(Apply(ApplyAll(events), Run(rq)))
  }

  /** The condition is exact, over the tables that runs of the series can produce. */
  lemma CollisionIsExact(rq: Request)
    requires rq.delta > 0
    ensures SafeAfterEveryHistory(rq) <==> !Collides(rq)
  {
    hide Collides;
    if Collides(rq) {
      var events := CollisionIsReached(rq);
      hide Reconciled, Scan, Consistent;
      assert !SafeAfterEveryHistory(rq);
    } else {
      forall events | OneSeries(events, rq.candles, rq.delta, rq.open) && (forall k :: 0 <= k < |events| ==> Sound(events[k]))
                      && Consistent(ApplyAll(events))
        ensures Consistent(Apply(ApplyAll(events), Run(rq)))
      {
        QuietRunKeepsConsistent(events, rq);
      }
    }
  }

  // ----- a run that fails -----

  /** Bars of ten; the market is closed for the bar at 10. */
  function ClosedAtTen(): int -> bool { t => t != 10 }

  /** First the range of two candles; then, with two more stored, a range that ends at 19. */
  const WIDE: Request := Request([0, 40], 10, ClosedAtTen(), 0, 41, 0)
  const NARROW: Request := Request([0, 5, 18, 40], 10, ClosedAtTen(), 0, 19, 0)

  lemma NarrowTimes()
    ensures Sorted(StoredTimes(NARROW)) == [0, 5, 18]
  {
    hide Sorted;
    WithinOneMore([], 0, 0, 19);
    WithinOneMore([0], 5, 0, 19);
    WithinOneMore([0, 5], 18, 0, 19);
    WithinOneMore([0, 5, 18], 40, 0, 19);
    assert [] + [0] == [0] && [0] + [5] == [0, 5] && [0, 5] + [18] == [0, 5, 18] && [0, 5, 18] + [40] == NARROW.candles;
    assert [0, 5, 18] + [] == [0, 5, 18];
    AscendingIsSorted([0, 5, 18]);
  }

  /** Two runs of one series after which two open rows overlap: [20, 40) and [15, 25). */
  lemma RowsCanOverlap()
    ensures OneSeries([Run(WIDE)], NARROW.candles, 10, ClosedAtTen())
    ensures Consistent(ApplyAll([Run(WIDE)]))
    ensures !Consistent(Apply(ApplyAll([Run(WIDE)]), Run(NARROW)))
  {
    NarrowTimes();
    FifteenIsMissing();
    hide Sorted, Reconciled, Scan, Consistent, MissingSlot, ApplyAll, OneSeries;
    var c := NARROW.candles;
    assert c[0] == 0 && c[3] == 40;
    assert WIDE == Surrounding(0, 40, 10, ClosedAtTen());
    SurroundingIsOfSeries(c, 0, 40, 10, ClosedAtTen());
    assert Slot(0, 10, 2) == 20;
    assert OnGrid(0, 10, 20);
    var i := RowAtReopening(0, 40, 10, ClosedAtTen(), 20);
    GapMeetsRow(ApplyAll([Run(WIDE)]), NARROW, i, 15);
  }

  lemma FifteenIsMissing()
    ensures MissingSlot([0, 5, 18], 10, ClosedAtTen(), 15)
  {
    var times := [0, 5, 18];
    assert Slot(15, 10, 0) == 15;
    assert OnGrid(5 + 10, 10, 15);
    assert MissingIn(times[1], times[2], 10, ClosedAtTen(), 15);
  }
}
