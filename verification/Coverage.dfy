/** Which candles a stored series is missing (app/market_data/domain/coverage.py). Times are seconds;
    `delta` is the length of the time frame and `open` the market-hours predicate of the exchange. */
module Coverage {
  import opened Arithmetic
  import opened Ordering

  datatype GapWindow = GapWindow(fromTime: int, toTime: int, expectedCount: nat, missingCount: nat)

  /** The `k`-th slot after `base`. */
  function Slot(base: int, delta: int, k: nat): int { base + k * delta }

  // ----- the scan, as functions -----

  /** Expected slots from `candidate` on, before `current`. */
  function MissingFrom(candidate: int, current: int, delta: int, open: int -> bool): seq<int>
    requires delta > 0
    decreases current - candidate
  {
    if candidate >= current then []
    else (if open(candidate) then [candidate] else []) + MissingFrom(candidate + delta, current, delta, open)
  }

  function Single(start: int, delta: int): GapWindow { GapWindow(start, start + delta, 1, 1) }

  function Extended(w: GapWindow, delta: int): GapWindow {
    GapWindow(w.fromTime, w.toTime + delta, w.expectedCount + 1, w.missingCount + 1)
  }

  /** The runs of adjacent slots among the first `n` missing times. */
  function Segments(missing: seq<int>, delta: int, n: nat): (r: seq<GapWindow>)
    requires 1 <= n <= |missing|
    ensures r != [] && r[|r| - 1].toTime == missing[n - 1] + delta
  {
    if n == 1 then [Single(missing[0], delta)]
    else
      var done := Segments(missing, delta, n - 1);
      if missing[n - 1] == missing[n - 2] + delta
      then done[..|done| - 1] + [Extended(done[|done| - 1], delta)]
      else done + [Single(missing[n - 1], delta)]
  }

  function PairGaps(previous: int, current: int, delta: int, open: int -> bool): seq<GapWindow>
    requires delta > 0
  {
    var missing := MissingFrom(previous + delta, current, delta, open);
    if missing == [] then [] else Segments(missing, delta, |missing|)
  }

  /** The gaps between consecutive values of an ascending series. */
  function GapsOf(ordered: seq<int>, delta: int, open: int -> bool): seq<GapWindow>
    requires delta > 0
  {
    if |ordered| < 2 then []
    else GapsOf(ordered[..|ordered| - 1], delta, open)
         + PairGaps(ordered[|ordered| - 2], ordered[|ordered| - 1], delta, open)
  }

  function InternalGaps(openTimes: seq<int>, delta: int, open: int -> bool): seq<GapWindow>
    requires delta > 0
  {
    GapsOf(Sorted(openTimes), delta, open)
  }

  // ----- the scan, as it runs -----

  method MissingBetween(previous: int, current: int, delta: int, open: int -> bool) returns (missing: seq<int>)
    requires delta > 0
    ensures missing == MissingFrom(previous + delta, current, delta, open)
  {
    missing := [];
    var candidate := previous + delta;
    while candidate < current
      invariant missing + MissingFrom(candidate, current, delta, open) == MissingFrom(previous + delta, current, delta, open)
      decreases current - candidate
    {
      if open(candidate) {
        missing := missing + [candidate];
      }
      candidate := candidate + delta;
    }
    assert missing + [] == missing;
  }

  method SplitSegments(missing: seq<int>, delta: int) returns (gaps: seq<GapWindow>)
    requires missing != []
    ensures gaps == Segments(missing, delta, |missing|)
  {
    gaps := [];
    var segmentStart, segmentCount := missing[0], 1;
    var n := 1;
    while n < |missing|
      invariant 1 <= n <= |missing|
      invariant gaps + [GapWindow(segmentStart, missing[n - 1] + delta, segmentCount,
            segmentCount)] == Segments(missing, delta, n)
    {
      ghost var before := Segments(missing, delta, n);
      assert before[..|before| - 1] == gaps;
      var prior, next := missing[n - 1], missing[n];
      if next != prior + delta {
        gaps := gaps + [GapWindow(segmentStart, prior + delta, segmentCount, segmentCount)];
        segmentStart, segmentCount := next, 1;
      } else {
        segmentCount := segmentCount + 1;
      }
      n := n + 1;
    }
    gaps := gaps + [GapWindow(segmentStart, missing[|missing| - 1] + delta, segmentCount, segmentCount)];
  }

  method FindInternalGaps(openTimes: seq<int>, delta: int, open: int -> bool) returns (gaps: seq<GapWindow>)
    requires delta > 0
    ensures gaps == InternalGaps(openTimes, delta, open)
  {
    hide MissingFrom, Segments, Sorted;
    var ordered := Sorted(openTimes);
    gaps := [];
    if |ordered| < 2 {
      return;
    }
    var n := 1;
    assert GapsOf(ordered[..1], delta, open) == [];
    while n < |ordered|
      invariant 1 <= n <= |ordered|
      invariant gaps == GapsOf(ordered[..n], delta, open)
    {
      assert ordered[..n + 1][..n] == ordered[..n];
      assert GapsOf(ordered[..n + 1], delta, open) == gaps + PairGaps(ordered[n - 1], ordered[n], delta, open);
      hide GapsOf;
      var missing := MissingBetween(ordered[n - 1], ordered[n], delta, open);
      if missing != [] {
        var found := SplitSegments(missing, delta);
        gaps := gaps + found;
      }
      n := n + 1;
    }
    assert ordered[..n] == ordered;
  }

  // ----- what the windows mean -----

  /** `t` is a slot of the grid that starts at `base`. */
  ghost predicate OnGrid(base: int, delta: int, t: int) {
    exists k: nat :: Slot(base, delta, k) == t
  }

  /** `t` is one of the slots of a window. */
  ghost predicate InWindow(w: GapWindow, delta: int, t: int) {
    exists k: nat :: k < w.missingCount && Slot(w.fromTime, delta, k) == t
  }

  ghost predicate Covered(gaps: seq<GapWindow>, delta: int, t: int) {
    exists g :: 0 <= g < |gaps| && InWindow(gaps[g], delta, t)
  }

  /** `t` is an expected slot strictly between two neighbouring stored times. */
  ghost predicate MissingIn(previous: int, current: int, delta: int, open: int -> bool, t: int) {
    t < current && open(t) && OnGrid(previous + delta, delta, t)
  }

  ghost predicate MissingSlot(ordered: seq<int>, delta: int, open: int -> bool, t: int) {
    exists i :: 0 <= i < |ordered| - 1 && MissingIn(ordered[i], ordered[i + 1], delta, open, t)
  }

  predicate WellFormed(w: GapWindow, delta: int) {
    w.missingCount >= 1 && w.expectedCount == w.missingCount && w.toTime == Slot(w.fromTime, delta, w.missingCount)
  }

  lemma SlotNext(base: int, delta: int, k: nat)
    ensures Slot(base, delta, k + 1) == Slot(base, delta, k) + delta == Slot(base + delta, delta, k)
    ensures delta > 0 ==> Slot(base, delta, k) >= base
  {
  }

  lemma SlotsAreMonotone(base: int, delta: int, j: nat, k: nat)
    requires delta > 0
    ensures j < k ==> Slot(base, delta, j) + delta <= Slot(base, delta, k)
    ensures j <= k <==> Slot(base, delta, j) <= Slot(base, delta, k)
  {
    if j < k {
      TimesStrict(j, k, delta);
    } else if k < j {
      TimesStrict(k, j, delta);
    }
  }

  lemma {:induction false} MissingFromIsExact(candidate: int, current: int, delta: int, open: int -> bool, t: int)
    requires delta > 0
    ensures Has(MissingFrom(candidate, current, delta, open), t) <==>
            t < current && open(t) && OnGrid(candidate, delta, t)
    decreases current - candidate
  {
    if candidate < current {
      var rest := MissingFrom(candidate + delta, current, delta, open);
      MissingFromIsExact(candidate + delta, current, delta, open, t);
      SlotStep(candidate, delta, t);
      HasCons(candidate, rest, t);
      assert [] + rest == rest;
    } else if OnGrid(candidate, delta, t) {
      var k: nat :| Slot(candidate, delta, k) == t;
      SlotNext(candidate, delta, k);
    }
  }

  lemma SlotStep(base: int, delta: int, t: int)
    ensures OnGrid(base, delta, t) <==> t == base || OnGrid(base + delta, delta, t)
  {
    if t == base {
      assert Slot(base, delta, 0) == t;
    }
    if OnGrid(base, delta, t) && t != base {
      var k: nat :| Slot(base, delta, k) == t;
      SlotNext(base, delta, k - 1);
      assert Slot(base + delta, delta, k - 1) == t;
    }
    if OnGrid(base + delta, delta, t) {
      var k: nat :| Slot(base + delta, delta, k) == t;
      SlotNext(base, delta, k);
      assert Slot(base, delta, k + 1) == t;
    }
  }

  /** Times at least one slot apart, in ascending order. */
  predicate Spread(times: seq<int>, delta: int) {
    forall i, j :: 0 <= i < j < |times| ==> times[i] + delta <= times[j]
  }

  lemma SpreadCons(head: int, tail: seq<int>, delta: int)
    requires Spread(tail, delta) && forall i :: 0 <= i < |tail| ==> head + delta <= tail[i]
    ensures Spread([head] + tail, delta)
  {
  }

  lemma {:induction false} MissingFromAscends(candidate: int, current: int, delta: int, open: int -> bool)
    requires delta > 0
    ensures Spread(MissingFrom(candidate, current, delta, open), delta)
    ensures forall i :: 0 <= i < |MissingFrom(candidate, current, delta, open)| ==>
                          candidate <= MissingFrom(candidate, current, delta, open)[i] < current
    decreases current - candidate
  {
    if candidate < current {
      MissingFromAscends(candidate + delta, current, delta, open);
      var rest := MissingFrom(candidate + delta, current, delta, open);
      assert MissingFrom(candidate, current, delta, open) == if open(candidate) then [candidate] + rest else [] + rest;
      assert [] + rest == rest;
      hide MissingFrom;
      SpreadCons(candidate, rest, delta);
    }
  }

  // ----- segments -----

  predicate Separated(gaps: seq<GapWindow>, delta: int) {
    && (forall i :: 0 <= i < |gaps| ==> WellFormed(gaps[i], delta))
    && (forall i, j :: 0 <= i < j < |gaps| ==> gaps[i].toTime < gaps[j].fromTime)
  }

  lemma SingleIsWellFormed(start: int, delta: int)
    ensures WellFormed(Single(start, delta), delta)
  {
  }

  lemma SeparatedAppend(done: seq<GapWindow>, w: GapWindow, delta: int)
    requires delta > 0 && Separated(done, delta) && WellFormed(w, delta)
    requires done != [] ==> done[|done| - 1].toTime < w.fromTime
    ensures Separated(done + [w], delta)
  {
  }

  lemma SeparatedExtend(done: seq<GapWindow>, delta: int)
    requires delta > 0 && Separated(done, delta) && done != []
    ensures Separated(done[..|done| - 1] + [Extended(done[|done| - 1], delta)], delta)
  {
  }

  lemma {:induction false} SegmentsAreSeparated(missing: seq<int>, delta: int, n: nat)
    requires delta > 0 && 1 <= n <= |missing| && Spread(missing, delta)
    ensures Separated(Segments(missing, delta, n), delta)
    ensures Segments(missing, delta, n)[0].fromTime == missing[0]
  {
    hide Separated, WellFormed;
    if n == 1 {
      SingleIsWellFormed(missing[0], delta);
      NothingIsSeparated(delta);
      SeparatedAppend([], Single(missing[0], delta), delta);
      assert [] + [Single(missing[0], delta)] == Segments(missing, delta, 1);
    } else {
      SegmentsAreSeparated(missing, delta, n - 1);
      var done := Segments(missing, delta, n - 1);
      assert missing[n - 2] + delta <= missing[n - 1];
      hide Spread;
      if missing[n - 1] == missing[n - 2] + delta {
        SeparatedExtend(done, delta);
      } else {
        SingleIsWellFormed(missing[n - 1], delta);
        SeparatedAppend(done, Single(missing[n - 1], delta), delta);
      }
    }
  }

  lemma NothingIsSeparated(delta: int)
    ensures Separated([], delta)
  {
  }

  lemma WindowsEndInOrder(gaps: seq<GapWindow>, delta: int)
    requires delta > 0 && Separated(gaps, delta)
    ensures forall i, j :: 0 <= i < j < |gaps| ==> gaps[i].toTime < gaps[j].toTime
  {
  }

  lemma ExtendedCovers(w: GapWindow, delta: int, t: int)
    requires WellFormed(w, delta)
    ensures InWindow(Extended(w, delta), delta, t) <==> InWindow(w, delta, t) || t == w.toTime
  {
  }

  lemma SingleCovers(start: int, delta: int, t: int)
    ensures InWindow(Single(start, delta), delta, t) <==> t == start
  {
    assert Slot(start, delta, 0) == start;
  }

  lemma CoveredAppend(gaps: seq<GapWindow>, w: GapWindow, delta: int, t: int)
    ensures Covered(gaps + [w], delta, t) <==> Covered(gaps, delta, t) || InWindow(w, delta, t)
  {
    var all := gaps + [w];
    if Covered(gaps, delta, t) {
      var g :| 0 <= g < |gaps| && InWindow(gaps[g], delta, t);
      assert InWindow(all[g], delta, t);
    }
    if InWindow(w, delta, t) {
      assert InWindow(all[|gaps|], delta, t);
    }
    if Covered(all, delta, t) && !InWindow(w, delta, t) {
      var g :| 0 <= g < |all| && InWindow(all[g], delta, t);
      assert InWindow(gaps[g], delta, t);
    }
  }

  /** How one more missing time changes the segments. */
  lemma SegmentsStep(missing: seq<int>, delta: int, n: nat)
    requires 1 <= n <= |missing|
    ensures n == 1 ==> Segments(missing, delta, n) == [] + [Single(missing[0], delta)]
    ensures n > 1 ==>
              var done := Segments(missing, delta, n - 1);
              Segments(missing, delta, n) ==
              if missing[n - 1] == missing[n - 2] + delta
              then done[..|done| - 1] + [Extended(done[|done| - 1], delta)]
              else done + [Single(missing[n - 1], delta)]
  {
  }

  lemma TakeOneMore(missing: seq<int>, n: nat, t: int)
    requires 1 <= n <= |missing|
    ensures Has(missing[..n], t) <==> t == missing[n - 1] || Has(missing[..n - 1], t)
    ensures !Has(missing[..0], t)
  {
  }

  lemma {:induction false} SegmentsCoverExactly(missing: seq<int>, delta: int, n: nat, t: int)
    requires delta > 0 && 1 <= n <= |missing| && Spread(missing, delta)
    ensures Covered(Segments(missing, delta, n), delta, t) <==> Has(missing[..n], t)
  {
    hide Covered, InWindow, Has, Slot, WellFormed, Spread, Separated, Segments, Extended, Single;
    TakeOneMore(missing, n, t);
    SegmentsStep(missing, delta, n);
    if n == 1 {
      NothingCovered(delta, t);
      AppendStep([], missing[0], delta, t);
    } else {
      SegmentsCoverExactly(missing, delta, n - 1, t);
      SegmentsAreSeparated(missing, delta, n - 1);
      var done := Segments(missing, delta, n - 1);
      if missing[n - 1] == missing[n - 2] + delta {
        ExtendStep(done, delta, t);
      } else {
        AppendStep(done, missing[n - 1], delta, t);
      }
    }
  }

  lemma AppendStep(done: seq<GapWindow>, start: int, delta: int, t: int)
    ensures Covered(done + [Single(start, delta)], delta, t) <==> Covered(done, delta, t) || t == start
  {
    hide Covered, InWindow, Single;
    CoveredAppend(done, Single(start, delta), delta, t);
    SingleCovers(start, delta, t);
  }

  lemma ExtendStep(done: seq<GapWindow>, delta: int, t: int)
    requires done != [] && Separated(done, delta)
    ensures Covered(done[..|done| - 1] + [Extended(done[|done| - 1], delta)], delta, t) <==>
            Covered(done, delta, t) || t == done[|done| - 1].toTime
  {
    var (front, last) := (done[..|done| - 1], done[|done| - 1]);
    assert done == front + [last];
    assert WellFormed(last, delta);
    hide Covered, InWindow, Separated, WellFormed, Extended;
    CoveredAppend(front, last, delta, t);
    CoveredAppend(front, Extended(last, delta), delta, t);
    ExtendedCovers(last, delta, t);
  }

  lemma NothingCovered(delta: int, t: int)
    ensures !Covered([], delta, t)
  {
  }

  /** Between two neighbouring stored times the windows hold exactly the expected slots. */
  lemma PairGapsAreExact(previous: int, current: int, delta: int, open: int -> bool, t: int)
    requires delta > 0
    ensures Covered(PairGaps(previous, current, delta, open), delta, t) <==> MissingIn(previous, current, delta, open, t)
    ensures Separated(PairGaps(previous, current, delta, open), delta)
  {
    var missing := MissingFrom(previous + delta, current, delta, open);
    MissingFromIsExact(previous + delta, current, delta, open, t);
    MissingFromAscends(previous + delta, current, delta, open);
    if missing != [] {
      SegmentsCoverExactly(missing, delta, |missing|, t);
      assert missing[..|missing|] == missing;
      SegmentsAreSeparated(missing, delta, |missing|);
    }
  }

  lemma PairGapsStayInside(previous: int, current: int, delta: int, open: int -> bool)
    requires delta > 0
    ensures var gaps := PairGaps(previous, current, delta, open);
            forall i :: 0 <= i < |gaps| ==> previous + delta <= gaps[i].fromTime < gaps[i].toTime < current + delta
  {
    var missing := MissingFrom(previous + delta, current, delta, open);
    MissingFromAscends(previous + delta, current, delta, open);
    if missing != [] {
      SegmentsAreSeparated(missing, delta, |missing|);
      var gaps := PairGaps(previous, current, delta, open);
      WindowsEndInOrder(gaps, delta);
      forall i | 0 <= i < |gaps|
        ensures previous + delta <= gaps[i].fromTime < gaps[i].toTime < current + delta
      {
        SlotsAreMonotone(gaps[i].fromTime, delta, 0, gaps[i].missingCount);
        assert Slot(gaps[i].fromTime, delta, 0) == gaps[i].fromTime;
        if i > 0 {
          assert gaps[0].toTime < gaps[i].fromTime;
          SlotsAreMonotone(gaps[0].fromTime, delta, 0, gaps[0].missingCount);
          assert Slot(gaps[0].fromTime, delta, 0) == gaps[0].fromTime;
        }
      }
    }
  }

  /** Maximality: the slot just before a window is not missing, and neither is the slot at its end.
      Each of them is the stored neighbour, beyond the other neighbour, or outside market hours. */
  lemma PairGapsAreMaximal(previous: int, current: int, delta: int, open: int -> bool, i: nat)
    requires delta > 0 && i < |PairGaps(previous, current, delta, open)|
    ensures var w := PairGaps(previous, current, delta, open)[i];
            && (w.fromTime - delta == previous || !open(w.fromTime - delta))
            && (w.toTime >= current || !open(w.toTime))
  {
    var gaps := PairGaps(previous, current, delta, open);
    var w := gaps[i];
    var (before, after) := (w.fromTime - delta, w.toTime);
    PairGapsAreExact(previous, current, delta, open, w.fromTime);
    PairGapsAreExact(previous, current, delta, open, before);
    PairGapsAreExact(previous, current, delta, open, after);
    PairGapsStayInside(previous, current, delta, open);
    assert Slot(w.fromTime, delta, 0) == w.fromTime && InWindow(w, delta, w.fromTime);
    var k: nat :| Slot(previous + delta, delta, k) == w.fromTime;
    NotCoveredBeside(gaps, delta, i);
    if k > 0 {
      SlotNext(previous + delta, delta, k - 1);
      assert Slot(previous + delta, delta, k - 1) == before;
    }
    SlotPlus(previous + delta, delta, k, w.missingCount);
    assert Slot(previous + delta, delta, k + w.missingCount) == after;
  }

  lemma SlotPlus(base: int, delta: int, k: nat, m: nat)
    ensures Slot(base, delta, k + m) == Slot(Slot(base, delta, k), delta, m)
  {
  }

  lemma NotCoveredBeside(gaps: seq<GapWindow>, delta: int, i: nat)
    requires delta > 0 && Separated(gaps, delta) && i < |gaps|
    ensures !Covered(gaps, delta, gaps[i].fromTime - delta) && !Covered(gaps, delta, gaps[i].toTime)
  {
    forall g, k: nat | 0 <= g < |gaps| && k < gaps[g].missingCount
      ensures Slot(gaps[g].fromTime, delta, k) != gaps[i].fromTime - delta
      ensures Slot(gaps[g].fromTime, delta, k) != gaps[i].toTime
    {
      SlotsAreMonotone(gaps[g].fromTime, delta, 0, k);
      SlotsAreMonotone(gaps[g].fromTime, delta, k, gaps[g].missingCount);
      assert Slot(gaps[g].fromTime, delta, 0) == gaps[g].fromTime;
    }
  }

  // ----- the whole series -----

  /** Windows in ascending order, none overlapping the next. */
  predicate InOrder(gaps: seq<GapWindow>, delta: int) {
    && (forall i :: 0 <= i < |gaps| ==> WellFormed(gaps[i], delta) && gaps[i].fromTime < gaps[i].toTime)
    && (forall i, j :: 0 <= i < j < |gaps| ==> gaps[i].toTime <= gaps[j].fromTime)
  }

  lemma {:induction false} GapsAreInOrder(ordered: seq<int>, delta: int, open: int -> bool)
    requires delta > 0 && Ascending(ordered)
    ensures InOrder(GapsOf(ordered, delta, open), delta)
    ensures forall i :: 0 <= i < |GapsOf(ordered, delta, open)| ==>
                          && |ordered| > 0 && ordered[0] + delta <= GapsOf(ordered, delta, open)[i].fromTime
                          && GapsOf(ordered, delta, open)[i].toTime < ordered[|ordered| - 1] + delta
  {
    if |ordered| >= 2 {
      var front := ordered[..|ordered| - 1];
      GapsAreInOrder(front, delta, open);
      PairGapsAreExact(ordered[|ordered| - 2], ordered[|ordered| - 1], delta, open, 0);
      PairGapsStayInside(ordered[|ordered| - 2], ordered[|ordered| - 1], delta, open);
    }
  }

  lemma CoveredConcat(a: seq<GapWindow>, b: seq<GapWindow>, delta: int, t: int)
    ensures Covered(a + b, delta, t) <==> Covered(a, delta, t) || Covered(b, delta, t)
  {
    var all := a + b;
    if Covered(a, delta, t) {
      var g :| 0 <= g < |a| && InWindow(a[g], delta, t);
      assert InWindow(all[g], delta, t);
    }
    if Covered(b, delta, t) {
      var g :| 0 <= g < |b| && InWindow(b[g], delta, t);
      assert InWindow(all[|a| + g], delta, t);
    }
    if Covered(all, delta, t) {
      var g :| 0 <= g < |all| && InWindow(all[g], delta, t);
      if g < |a| {
        assert InWindow(a[g], delta, t);
      } else {
        assert InWindow(b[g - |a|], delta, t);
      }
    }
  }

  lemma MissingSlotLast(ordered: seq<int>, delta: int, open: int -> bool, t: int)
    requires |ordered| >= 2
    ensures MissingSlot(ordered, delta, open, t) <==>
            MissingSlot(ordered[..|ordered| - 1], delta, open, t)
            || MissingIn(ordered[|ordered| - 2], ordered[|ordered| - 1], delta, open, t)
  {
  }

  lemma {:induction false} GapsAreExact(ordered: seq<int>, delta: int, open: int -> bool, t: int)
    requires delta > 0
    ensures Covered(GapsOf(ordered, delta, open), delta, t) <==> MissingSlot(ordered, delta, open, t)
  {
    if |ordered| >= 2 {
      var front := ordered[..|ordered| - 1];
      GapsAreExact(front, delta, open, t);
      PairGapsAreExact(ordered[|ordered| - 2], ordered[|ordered| - 1], delta, open, t);
      MissingSlotLast(ordered, delta, open, t);
      CoveredConcat(GapsOf(front, delta, open),
                    PairGaps(ordered[|ordered| - 2], ordered[|ordered| - 1], delta, open), delta, t);
    }
  }

  /** The gap scan is exact for any open times and any market hours: a time is a slot of a returned
      window if and only if it is an expected slot strictly between two neighbouring stored candles;
      windows ascend without overlap, and each count is its length in slots. */
  lemma GapScanIsExact(openTimes: seq<int>, delta: int, open: int -> bool, t: int)
    requires delta > 0
    ensures var gaps := InternalGaps(openTimes, delta, open);
            && (Covered(gaps, delta, t) <==> MissingSlot(Sorted(openTimes), delta, open, t))
            && InOrder(gaps, delta)
  {
    SortedIsSorted(openTimes);
    GapsAreExact(Sorted(openTimes), delta, open, t);
    GapsAreInOrder(Sorted(openTimes), delta, open);
  }
}
