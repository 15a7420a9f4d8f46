/** The two ways of counting missing candles (app/market_data/domain/coverage.py). */
module MissingCounts {
  import opened Arithmetic
  import opened Ordering
  import opened Coverage

  /** One pair: the slots it misses, times the slot length, cover its width less one slot, and
      exactly that much only if the width is a whole number of slots. */
  lemma PairDefect(width: int, delta: int)
    requires delta > 0 && width > 0
    ensures ((width - 1) / delta) * delta >= width - delta
    ensures ((width - 1) / delta) * delta == width - delta <==> width % delta == 0
  {
    var q := width / delta;
    Quotient(width, delta);
    if width % delta == 0 {
      SumTimes(q - 1, 1, delta);
      DivUnique(width - 1, delta, q - 1);
    } else {
      DivUnique(width - 1, delta, q);
    }
  }

  // ----- the counts -----

  function TotalMissing(gaps: seq<GapWindow>): nat {
    if gaps == [] then 0 else TotalMissing(gaps[..|gaps| - 1]) + gaps[|gaps| - 1].missingCount
  }

  /** The count used when no gap scan is available: expected slots of the stored range minus stored rows. */
  function ClosedFormMissing(actualFrom: int, actualTo: int, delta: int, storedCount: nat): nat
    requires delta > 0 && actualFrom <= actualTo
  {
    var expected := if (actualTo - actualFrom) / delta > 1 then (actualTo - actualFrom) / delta else 1;
    if expected > storedCount then expected - storedCount else 0
  }

  predicate OneGrid(ordered: seq<int>, delta: int)
    requires delta > 0
  {
    forall i :: 0 <= i < |ordered| - 1 ==> (ordered[i + 1] - ordered[i]) % delta == 0
  }

  function AlwaysOpen(): int -> bool { t => true }

  lemma {:induction false} TotalConcat(a: seq<GapWindow>, b: seq<GapWindow>)
    ensures TotalMissing(a + b) == TotalMissing(a) + TotalMissing(b)
  {
    if b == [] {
      assert a + b == a;
    } else {
      assert (a + b)[..|a + b| - 1] == a + b[..|b| - 1];
      TotalConcat(a, b[..|b| - 1]);
    }
  }

  lemma TotalAppend(a: seq<GapWindow>, w: GapWindow)
    ensures TotalMissing(a + [w]) == TotalMissing(a) + w.missingCount
  {
  }

  lemma {:induction false} SegmentsCount(missing: seq<int>, delta: int, n: nat)
    requires 1 <= n <= |missing|
    ensures TotalMissing(Segments(missing, delta, n)) == n
  {
    hide TotalMissing;
    if n == 1 {
      assert Segments(missing, delta, 1) == [] + [Single(missing[0], delta)];
      TotalAppend([], Single(missing[0], delta));
      TotalOfNone();
    } else {
      SegmentsCount(missing, delta, n - 1);
      var done := Segments(missing, delta, n - 1);
      var (front, last) := (done[..|done| - 1], done[|done| - 1]);
      assert done == front + [last];
      TotalAppend(front, last);
      TotalAppend(front, Extended(last, delta));
      TotalAppend(done, Single(missing[n - 1], delta));
    }
  }

  lemma TotalOfNone()
    ensures TotalMissing([]) == 0
  {
  }

  lemma {:induction false} SlotsBetween(candidate: int, current: int, delta: int)
    requires delta > 0
    ensures |MissingFrom(candidate, current, delta, AlwaysOpen())| ==
            if candidate < current then (current - candidate - 1) / delta + 1 else 0
    decreases current - candidate
  {
    if candidate < current {
      SlotsBetween(candidate + delta, current, delta);
      OneSlotFewer(current - candidate - 1, delta);
    }
  }

  lemma PairCount(previous: int, current: int, delta: int)
    requires delta > 0 && previous < current
    ensures TotalMissing(PairGaps(previous, current, delta, AlwaysOpen())) == (current - previous - 1) / delta
  {
    hide MissingFrom, Segments;
    var missing := MissingFrom(previous + delta, current, delta, AlwaysOpen());
    SlotsBetween(previous + delta, current, delta);
    OneSlotFewer(current - previous - 1, delta);
    if missing != [] {
      SegmentsCount(missing, delta, |missing|);
    }
  }

  /** Slots needed to span an ascending series, less one per stored time. */
  function Uncovered(ordered: seq<int>, delta: int): int
    requires ordered != []
  {
    ordered[|ordered| - 1] - ordered[0] - (|ordered| - 1) * delta
  }

  lemma {:induction false} TotalDefect(ordered: seq<int>, delta: int)
    requires delta > 0 && Ascending(ordered) && ordered != []
    ensures var m := TotalMissing(GapsOf(ordered, delta, AlwaysOpen()));
            m * delta >= Uncovered(ordered, delta) && (m * delta == Uncovered(ordered, delta) <==> OneGrid(ordered, delta))
  {
    hide PairGaps, TotalMissing, OneGrid;
    var n := |ordered|;
    if n == 1 {
      TotalOfNone();
      SingletonGrid(ordered, delta);
    } else {
      var front := ordered[..n - 1];
      TotalDefect(front, delta);
      var a := GapsOf(front, delta, AlwaysOpen());
      var b := PairGaps(ordered[n - 2], ordered[n - 1], delta, AlwaysOpen());
      assert GapsOf(ordered, delta, AlwaysOpen()) == a + b;
      hide GapsOf;
      TotalConcat(a, b);
      PairCount(ordered[n - 2], ordered[n - 1], delta);
      PairDefect(ordered[n - 1] - ordered[n - 2], delta);
      SumTimes(TotalMissing(a), TotalMissing(b), delta);
      SumTimes(n - 2, 1, delta);
      OneGridLast(ordered, delta);
    }
  }

  lemma SingletonGrid(ordered: seq<int>, delta: int)
    requires delta > 0 && |ordered| == 1
    ensures OneGrid(ordered, delta)
  {
  }

  lemma OneGridLast(ordered: seq<int>, delta: int)
    requires delta > 0 && |ordered| >= 2
    ensures OneGrid(ordered, delta) <==>
            OneGrid(ordered[..|ordered| - 1], delta) && (ordered[|ordered| - 1] - ordered[|ordered| - 2]) % delta == 0
  {
  }

  lemma ClosedFormShifts(from: int, to: int, delta: int, n: nat)
    requires delta > 0 && from <= to
    ensures ClosedFormMissing(from, to, delta, n) == ClosedFormMissing(0, to - from, delta, n)
  {
  }

  /** The comparison in numbers: `m` scanned slots against the closed form over `n` stored times. */
  lemma CountsCompared(m: nat, n: nat, span: int, delta: int)
    requires delta > 0 && n >= 1 && span >= 0 && m * delta >= span - (n - 1) * delta
    ensures ClosedFormMissing(0, span + delta, delta, n) == m <==> m * delta == span - (n - 1) * delta || m == 0
  {
    SumTimes(m, n - 1, delta);
    QuotientBelow(m + n - 1, span, delta);
    OneSlotFewer(span + delta, delta);
  }

  /** No two neighbouring times are more than one slot apart. */
  predicate Dense(ordered: seq<int>, delta: int) {
    forall i :: 0 <= i < |ordered| - 1 ==> ordered[i + 1] - ordered[i] <= delta
  }

  lemma DenseLast(ordered: seq<int>, delta: int)
    requires |ordered| >= 2
    ensures Dense(ordered, delta) <==>
            Dense(ordered[..|ordered| - 1], delta) && ordered[|ordered| - 1] - ordered[|ordered| - 2] <= delta
  {
  }

  lemma NoSlotBetween(width: int, delta: int)
    requires delta > 0 && width > 0
    ensures (width - 1) / delta == 0 <==> width <= delta
  {
    Quotient(width - 1, delta);
    if width <= delta {
      DivUnique(width - 1, delta, 0);
    }
  }

  /** The scan of an always-open market counts nothing exactly for times that are dense. */
  lemma {:induction false} NothingMissingMeansDense(ordered: seq<int>, delta: int)
    requires delta > 0 && Ascending(ordered)
    ensures TotalMissing(GapsOf(ordered, delta, AlwaysOpen())) == 0 <==> Dense(ordered, delta)
  {
    hide PairGaps, TotalMissing, Dense;
    var n := |ordered|;
    if n < 2 {
      TotalOfNone();
      ShortIsDense(ordered, delta);
    } else {
      var front := ordered[..n - 1];
      NothingMissingMeansDense(front, delta);
      var a := GapsOf(front, delta, AlwaysOpen());
      var b := PairGaps(ordered[n - 2], ordered[n - 1], delta, AlwaysOpen());
      assert GapsOf(ordered, delta, AlwaysOpen()) == a + b;
      hide GapsOf;
      TotalConcat(a, b);
      PairCount(ordered[n - 2], ordered[n - 1], delta);
      NoSlotBetween(ordered[n - 1] - ordered[n - 2], delta);
      DenseLast(ordered, delta);
    }
  }

  lemma ShortIsDense(ordered: seq<int>, delta: int)
    requires |ordered| < 2
    ensures Dense(ordered, delta)
  {
  }

  /** The scanned count and the closed-form count of an always-open market agree if and only if the
      stored times lie on one grid, or no two neighbours are more than one slot apart. */
  lemma MissingCountsAgreeOnAGrid(openTimes: seq<int>, delta: int)
    requires delta > 0 && Sorted(openTimes) != []
    ensures var ordered := Sorted(openTimes);
            && ordered[0] <= ordered[|ordered| - 1]
            && var scanned := TotalMissing(InternalGaps(openTimes, delta, AlwaysOpen()));
            && var closed := ClosedFormMissing(ordered[0], ordered[|ordered| - 1] + delta, delta, |ordered|);
            && (scanned == closed <==> OneGrid(ordered, delta) || Dense(ordered, delta))
  {
    SortedIsSorted(openTimes);
    hide Sorted, GapsOf, TotalMissing, OneGrid, ClosedFormMissing, Has, Dense;
    var ordered := Sorted(openTimes);
    FirstIsLeast(ordered);
    TotalDefect(ordered, delta);
    NothingMissingMeansDense(ordered, delta);
    hide Ascending;
    ClosedFormShifts(ordered[0], ordered[|ordered| - 1] + delta, delta, |ordered|);
    CountsCompared(TotalMissing(GapsOf(ordered, delta, AlwaysOpen())), |ordered|, ordered[|ordered| - 1] - ordered[0], delta);
  }

  /** Candles at 0 and 15 with bars of ten: the scan misses the bar at 10, the closed form none. */
  lemma CountsCanDiffer()
    ensures Sorted([0, 15]) == [0, 15]
    ensures TotalMissing(InternalGaps([0, 15], 10, AlwaysOpen())) == 1 && ClosedFormMissing(0, 15 + 10, 10, 2) == 0
  {
    AscendingIsSorted([0, 15]);
    PairCount(0, 15, 10);
    hide Sorted, PairGaps, TotalMissing;
    assert [0, 15][..1] == [0];
    assert GapsOf([0], 10, AlwaysOpen()) == [];
    assert [] + PairGaps(0, 15, 10, AlwaysOpen()) == PairGaps(0, 15, 10, AlwaysOpen());
  }

  lemma FirstIsLeast(ordered: seq<int>)
    requires Ascending(ordered) && ordered != []
    ensures ordered[0] <= ordered[|ordered| - 1]
  {
  }
}
