/** Evaluation metrics of a replay and the stored, downsampled equity curve
    (app/trading/application/backtest_metrics.py). */
module BacktestMetrics {
  import opened Wrappers
  import opened BacktestFill
  import opened ReplaySpec
  import opened ReplayLedger
  import opened Ordering

  datatype ReplayMetrics = ReplayMetrics(
    tradeCount: nat, winCount: nat, lossCount: nat, winRate: real, grossProfit: real, grossLoss: real,
    netPnl: real, totalFees: real, profitFactor: Option<real>, maxDrawdown: real, maxDrawdownPct: real)

  function Net(t: TradeRecord): real { t.realizedPnl - t.fees }

  function Nets(trades: seq<TradeRecord>): seq<real> {
    if trades == [] then [] else Nets(trades[..|trades| - 1]) + [Net(trades[|trades| - 1])]
  }

  function Positive(xs: seq<real>): seq<real> {
    if xs == [] then []
    else if xs[|xs| - 1] > 0.0 then Positive(xs[..|xs| - 1]) + [xs[|xs| - 1]]
    else Positive(xs[..|xs| - 1])
  }

  function Negative(xs: seq<real>): seq<real> {
    if xs == [] then []
    else if xs[|xs| - 1] < 0.0 then Negative(xs[..|xs| - 1]) + [xs[|xs| - 1]]
    else Negative(xs[..|xs| - 1])
  }

  function Sum(xs: seq<real>): real {
    if xs == [] then 0.0 else Sum(xs[..|xs| - 1]) + xs[|xs| - 1]
  }

  lemma SumAppend(xs: seq<real>, x: real)
    ensures Sum(xs + [x]) == Sum(xs) + x
  {
  }

  lemma {:induction false} SplitBySign(xs: seq<real>)
    ensures Sum(Positive(xs)) + Sum(Negative(xs)) == Sum(xs)
    ensures Sum(Positive(xs)) >= 0.0 && Sum(Negative(xs)) <= 0.0
    ensures |Positive(xs)| + |Negative(xs)| <= |xs|
  {
    if xs != [] {
      var rest := xs[..|xs| - 1];
      SplitBySign(rest);
      SumAppend(Positive(rest), xs[|xs| - 1]);
      SumAppend(Negative(rest), xs[|xs| - 1]);
    }
  }

  lemma {:induction false} NetsSum(trades: seq<TradeRecord>)
    ensures |Nets(trades)| == |trades| && Sum(Nets(trades)) == NetPnl(trades)
  {
    if trades != [] {
      NetsSum(trades[..|trades| - 1]);
      SumAppend(Nets(trades[..|trades| - 1]), Net(trades[|trades| - 1]));
    }
  }

  // ----- drawdown -----

  /** The equity path a drawdown is measured on: the initial equity, then the curve. */
  function Path(initialEquity: real, curve: seq<(Time, real)>): seq<real> {
    [initialEquity] + seq(|curve|, i requires 0 <= i < |curve| => curve[i].1)
  }

  /** The highest value of a path up to index `j`. */
  function Highest(path: seq<real>, j: nat): real
    requires j < |path|
  {
    if j == 0 then path[0] else MaxReal(Highest(path, j - 1), path[j])
  }

  lemma {:induction false} HighestIsTheMaximum(path: seq<real>, j: nat)
    requires j < |path|
    ensures forall i :: 0 <= i <= j ==> path[i] <= Highest(path, j)
    ensures exists i :: 0 <= i <= j && path[i] == Highest(path, j)
  {
    if j > 0 {
      HighestIsTheMaximum(path, j - 1);
      var i :| 0 <= i <= j - 1 && path[i] == Highest(path, j - 1);
      var top := if Highest(path, j) == path[j] then j else i;
      assert path[top] == Highest(path, j);
    } else {
      assert path[0] == Highest(path, 0);
    }
  }

  /** `d` is the largest fall from any point of the path to any later point. */
  ghost predicate LargestFall(path: seq<real>, d: real) {
    && (forall i, j :: 0 <= i <= j < |path| ==> path[i] - path[j] <= d)
    && (exists i, j :: 0 <= i <= j < |path| && path[i] - path[j] == d)
  }

  /** The fall at index `j` as a fraction of the peak so far; zero while the peak is not positive. */
  function FallFraction(path: seq<real>, j: nat): real
    requires j < |path|
  {
    if Highest(path, j) > 0.0 then (Highest(path, j) - path[j]) / Highest(path, j) else 0.0
  }

  /** `f` is the largest fall as a fraction of the peak it fell from. */
  ghost predicate LargestFallFraction(path: seq<real>, f: real) {
    && (forall j :: 0 <= j < |path| ==> FallFraction(path, j) <= f)
    && (exists j :: 0 <= j < |path| && FallFraction(path, j) == f)
  }

  lemma {:induction false} HighestOfPrefix(path: seq<real>, n: nat, j: nat)
    requires j < n <= |path|
    ensures Highest(path[..n], j) == Highest(path, j)
  {
    if j > 0 {
      HighestOfPrefix(path, n, j - 1);
    }
  }

  lemma FractionExtends(path: seq<real>, j: nat, f: real)
    requires 1 <= j < |path| && LargestFallFraction(path[..j], f)
    ensures LargestFallFraction(path[..j + 1], MaxReal(f, FallFraction(path, j)))
  {
    var next := path[..j + 1];
    forall k | 0 <= k <= j
      ensures FallFraction(next, k) == FallFraction(path, k)
      ensures k < j ==> FallFraction(path[..j], k) == FallFraction(path, k)
    {
      HighestOfPrefix(path, j + 1, k);
      if k < j {
        HighestOfPrefix(path, j, k);
      }
    }
    hide FallFraction;
    var k :| 0 <= k < j && FallFraction(path[..j], k) == f;
    var at := if MaxReal(f, FallFraction(path, j)) == f then k else j;
    assert FallFraction(next, at) == MaxReal(f, FallFraction(path, j));
  }

  lemma FallExtends(path: seq<real>, j: nat, d: real)
    requires 1 <= j < |path| && LargestFall(path[..j], d)
    ensures LargestFall(path[..j + 1], MaxReal(d, Highest(path, j) - path[j]))
  {
    var d' := MaxReal(d, Highest(path, j) - path[j]);
    var next := path[..j + 1];
    HighestIsTheMaximum(path, j);
    forall i, k | 0 <= i <= k < |next|
      ensures next[i] - next[k] <= d'
    {
      if k < j {
        assert path[..j][i] - path[..j][k] <= d;
      }
    }
    if d' == d {
      var i, k :| 0 <= i <= k < |path[..j]| && path[..j][i] - path[..j][k] == d;
      assert next[i] - next[k] == d';
    } else {
      var i :| 0 <= i <= j && path[i] == Highest(path, j);
      assert next[i] - next[j] == d';
    }
  }

  lemma FallsExtend(path: seq<real>, j: nat, d: real, f: real)
    requires 1 <= j < |path| && LargestFall(path[..j], d) && LargestFallFraction(path[..j], f)
    ensures var fall := Highest(path, j) - path[j];
            && LargestFall(path[..j + 1], MaxReal(d, fall))
            && LargestFallFraction(path[..j + 1], if Highest(path, j) > 0.0 then MaxReal(f, fall / Highest(path, j)) else f)
  {
    assert FallFraction(path, j) == if Highest(path, j) > 0.0 then (Highest(path, j) - path[j]) / Highest(path, j) else 0.0;
    FractionsAreNotNegative(path[..j], f);
    hide LargestFall, LargestFallFraction, FallFraction, Highest;
    FallExtends(path, j, d);
    FractionExtends(path, j, f);
  }

  method Drawdown(initialEquity: real, curve: seq<(Time, real)>) returns (maxDrawdown: real, maxDrawdownPct: real)
    ensures LargestFall(Path(initialEquity, curve), maxDrawdown)
    ensures LargestFallFraction(Path(initialEquity, curve), maxDrawdownPct)
  {
    hide LargestFall, LargestFallFraction, Highest, Path;
    ghost var path := Path(initialEquity, curve);
    PathPoints(initialEquity, curve);
    var peak := initialEquity;
    maxDrawdown, maxDrawdownPct := 0.0, 0.0;
    StartsLevel(path);
    for k := 0 to |curve|
      invariant peak == Highest(path, k)
      invariant LargestFall(path[..k + 1], maxDrawdown)
      invariant LargestFallFraction(path[..k + 1], maxDrawdownPct)
    {
      var equity := curve[k].1;
      peak := MaxReal(peak, equity);
      var drawdown := peak - equity;
      NextHighest(path, k + 1);
      FallsExtend(path, k + 1, maxDrawdown, maxDrawdownPct);
      maxDrawdown := MaxReal(maxDrawdown, drawdown);
      if peak > 0.0 {
        maxDrawdownPct := MaxReal(maxDrawdownPct, drawdown / peak);
      }
    }
    assert path[..|path|] == path;
  }

  lemma PathPoints(initialEquity: real, curve: seq<(Time, real)>)
    ensures var path := Path(initialEquity, curve);
            |path| == |curve| + 1 && path[0] == initialEquity && forall k :: 0 <= k < |curve| ==> path[k + 1] == curve[k].1
  {
  }

  lemma NextHighest(path: seq<real>, j: nat)
    requires 0 < j < |path|
    ensures Highest(path, j) == MaxReal(Highest(path, j - 1), path[j])
  {
  }

  lemma StartsLevel(path: seq<real>)
    requires path != []
    ensures Highest(path, 0) == path[0]
    ensures LargestFall(path[..1], 0.0) && LargestFallFraction(path[..1], 0.0)
  {
    var start := path[..1];
    assert start[0] - start[0] == 0.0;
    assert FallFraction(start, 0) == 0.0;
  }

  lemma FractionsAreNotNegative(path: seq<real>, f: real)
    requires path != [] && LargestFallFraction(path, f)
    ensures f >= 0.0
  {
  }

  lemma RatioTimesDenominator(x: real, y: real)
    ensures y != 0.0 ==> x / y * y == x
  {
  }

  method ComputeMetrics(result: ReplayResult, initialEquity: real) returns (m: ReplayMetrics)
    ensures m.tradeCount == |result.trades| && m.winCount + m.lossCount <= m.tradeCount
    ensures m.netPnl == NetPnl(result.trades) == m.grossProfit - m.grossLoss
    ensures m.grossProfit >= 0.0 && m.grossLoss >= 0.0
    ensures m.grossProfit == Sum(Positive(Nets(result.trades))) && -m.grossLoss == Sum(Negative(Nets(result.trades)))
    ensures m.totalFees == TradeFees(result.trades)
    ensures m.winCount == |Positive(Nets(result.trades))| && m.lossCount == |Negative(Nets(result.trades))|
    ensures m.winRate * m.tradeCount as real == m.winCount as real && (m.tradeCount == 0 ==> m.winRate == 0.0)
    ensures m.grossLoss > 0.0 ==> m.profitFactor.Some? && m.profitFactor.value * m.grossLoss == m.grossProfit
    ensures m.grossLoss == 0.0 ==> m.profitFactor == None
    ensures LargestFall(Path(initialEquity, result.curve), m.maxDrawdown)
    ensures LargestFallFraction(Path(initialEquity, result.curve), m.maxDrawdownPct)
  {
    hide LargestFall, LargestFallFraction, Path, Nets, Positive, Negative, Sum, NetPnl, TradeFees;
    var nets := Nets(result.trades);
    var wins, losses := Positive(nets), Negative(nets);
    NetsSum(result.trades);
    SplitBySign(nets);
    var grossProfit, grossLoss := Sum(wins), -Sum(losses);
    var count := |result.trades|;
    var winRate := if count > 0 then |wins| as real / count as real else 0.0;
    RatioTimesDenominator(|wins| as real, count as real);
    RatioTimesDenominator(grossProfit, grossLoss);
    var maxDrawdown, maxDrawdownPct := Drawdown(initialEquity, result.curve);
    m := ReplayMetrics(count, |wins|, |losses|, winRate, grossProfit, grossLoss, Sum(nets), TradeFees(result.trades),
                       if grossLoss > 0.0 then Some(grossProfit / grossLoss) else None, maxDrawdown, maxDrawdownPct);
  }

  /** A replay that ends flat made exactly the reported net profit: initial equity plus
      `NetPnl` (what `ComputeMetrics` returns as `netPnl`) is the ending equity, whatever the prices,
      fees, stops and signals were. */
  lemma FlatReplayEarnsItsNetPnl(cfg: Config, candles: seq<Candle>)
    requires Replay(cfg, candles).Ok? && Replay(cfg, candles).value.endingPosition.None?
    ensures Replay(cfg, candles).value.endingEquity - cfg.initialEquity == NetPnl(Replay(cfg, candles).value.trades)
  {
    if |candles| > cfg.warmup {
      EndingEquityIsExplained(cfg, candles);
      FlatStateHasNoOpenFees(cfg, candles, |candles|);
    }
  }

  lemma FillLeavesNoFeesWhenFlat(s: State, fill: Fill, side: OrderSide, now: Time, allowShort: bool, reason: ExitReason)
    ensures var r := ApplyAndRecord(s, fill, side, now, allowShort, reason);
            r.Ok? && r.value.position.None? ==> r.value.openEntryFees == 0.0
  {
  }

  predicate NoFeesWhenFlat(s: State) { s.position.None? ==> s.openEntryFees == 0.0 }

  lemma {:induction false} ProbesLeaveNoFees(cfg: Config, s: State, probes: seq<Bar>)
    requires NoFeesWhenFlat(s) && RunProbes(cfg, s, probes).Ok?
    ensures NoFeesWhenFlat(RunProbes(cfg, s, probes).value)
    decreases |probes|
  {
    if probes != [] && !Unprotected(cfg, s) {
      var hit := ProtectiveExit(probes[0], s.position.value.side, s.stopPrice.value, s.takeProfitPrice);
      if hit.None? {
        ProbesLeaveNoFees(cfg, RaiseTrailingStop(s, probes[0]), probes[1..]);
      } else {
        hide ApplyAndRecord;
        var held := s.position.value;
        var price := if hit.value.1 == ByStop then SlippedStopPrice(hit.value.0, held.side, cfg.stopSlippage) else hit.value.0;
        var fill := SimulateFill(cfg.exchange, ClosingSide(held.side), price, held.quantity, cfg.expectedSlippage).value;
        FillLeavesNoFeesWhenFlat(s, fill, ClosingSide(held.side), probes[0].closeTime, AllowShort(cfg.exchange), hit.value.1);
      }
    }
  }

  lemma SignalLeavesNoFees(cfg: Config, s: State, candle: Candle, history: seq<Candle>)
    requires NoFeesWhenFlat(s) && ActOnSignal(cfg, s, candle, history).Ok?
    ensures NoFeesWhenFlat(ActOnSignal(cfg, s, candle, history).value)
  {
  }

  lemma BarLeavesNoFees(cfg: Config, s: State, candles: seq<Candle>, i: nat)
    requires i < |candles| && NoFeesWhenFlat(s) && EvaluateBar(cfg, s, candles, i).Ok?
    ensures NoFeesWhenFlat(EvaluateBar(cfg, s, candles, i).value)
  {
    hide RunProbes, Mark, ActOnSignal, Probes, History;
    ProbesLeaveNoFees(cfg, s, Probes(cfg, candles[i]));
    var m := RunProbes(cfg, s, Probes(cfg, candles[i])).value;
    MarkingIsNeutral(cfg, m, candles[i]);
    SignalLeavesNoFees(cfg, Mark(cfg, m, candles[i]), candles[i], History(cfg, candles, i));
  }

  lemma {:induction false} FlatStateHasNoOpenFees(cfg: Config, candles: seq<Candle>, n: nat)
    requires 0 <= cfg.warmup <= n <= |candles| && StateAfter(cfg, candles, n).Ok?
    ensures NoFeesWhenFlat(StateAfter(cfg, candles, n).value)
  {
    hide StateAfter, EvaluateBar;
    if n == cfg.warmup {
      FirstState(cfg, candles);
    } else {
      LastBar(cfg, candles, n);
      FlatStateHasNoOpenFees(cfg, candles, n - 1);
      BarLeavesNoFees(cfg, StateAfter(cfg, candles, n - 1).value, candles, n - 1);
    }
  }

  // ----- downsampling -----

  type Point = (Time, real)

  /** First index of the lowest equity in `curve[start..stop]`, as Python's `min` finds it. */
  function ArgMin(curve: seq<Point>, start: nat, stop: nat): (k: nat)
    requires start < stop <= |curve|
    ensures start <= k < stop
    ensures forall i :: start <= i < stop ==> curve[k].1 <= curve[i].1
    ensures forall i :: start <= i < k ==> curve[k].1 < curve[i].1
  {
    if stop == start + 1 then start
    else
      var k := ArgMin(curve, start, stop - 1);
      if curve[stop - 1].1 < curve[k].1 then stop - 1 else k
  }

  function ArgMax(curve: seq<Point>, start: nat, stop: nat): (k: nat)
    requires start < stop <= |curve|
    ensures start <= k < stop
    ensures forall i :: start <= i < stop ==> curve[i].1 <= curve[k].1
    ensures forall i :: start <= i < k ==> curve[i].1 < curve[k].1
  {
    if stop == start + 1 then start
    else
      var k := ArgMax(curve, start, stop - 1);
      if curve[stop - 1].1 > curve[k].1 then stop - 1 else k
  }

  function BucketEnd(curve: seq<Point>, start: nat, size: nat): nat {
    if start + size <= |curve| then start + size else |curve|
  }

  /** The lowest and the highest index of every bucket from `start` on. */
  function Extremes(curve: seq<Point>, start: nat, size: nat): seq<int>
    requires size > 0
    decreases |curve| - start
  {
    if start >= |curve| then []
    else
      var stop := BucketEnd(curve, start, size);
      [ArgMin(curve, start, stop), ArgMax(curve, start, stop)] + Extremes(curve, start + size, size)
  }

  function BucketCount(maxPoints: int): int {
    if (maxPoints - 2) / 2 > 1 then (maxPoints - 2) / 2 else 1
  }

  /** Rounded up, so that `BucketCount` buckets always cover the curve. */
  function BucketSize(n: nat, maxPoints: int): int { -((0 - n) / BucketCount(maxPoints)) }

  lemma BucketsCover(n: nat, maxPoints: int)
    requires n > 0
    ensures BucketSize(n, maxPoints) > 0
    ensures BucketCount(maxPoints) * BucketSize(n, maxPoints) >= n
  {
  }

  /** The keys put into the dictionary of kept points, in order; a key always maps to its own point. */
  function KeptIndexes(curve: seq<Point>, maxPoints: int): seq<int>
    requires curve != []
  {
    BucketsCover(|curve|, maxPoints);
    [0, |curve| - 1] + Extremes(curve, 0, BucketSize(|curve|, maxPoints))
  }

  predicate InRange(indexes: seq<int>, n: nat) {
    forall k :: 0 <= k < |indexes| ==> 0 <= indexes[k] < n
  }

  /** Buckets from `start` on keep at most two indexes each. */
  lemma {:induction false} ExtremesAreFew(curve: seq<Point>, start: nat, size: nat, buckets: nat)
    requires size > 0 && start + buckets * size >= |curve|
    ensures |Extremes(curve, start, size)| <= 2 * buckets
    decreases buckets
  {
    hide ArgMin, ArgMax;
    if start < |curve| {
      OneBucketLess(buckets, size, |curve| - start);
      ExtremesAreFew(curve, start + size, size, buckets - 1);
    }
  }

  lemma OneBucketLess(buckets: nat, size: nat, left: nat)
    requires left > 0 && buckets * size >= left
    ensures buckets > 0 && (buckets - 1) * size >= left - size
  {
  }

  lemma {:induction false} ExtremesInRange(curve: seq<Point>, start: nat, size: nat)
    requires size > 0
    ensures InRange(Extremes(curve, start, size), |curve|)
    decreases |curve| - start
  {
    hide ArgMin, ArgMax;
    if start < |curve| {
      ExtremesInRange(curve, start + size, size);
    }
  }

  /** Index `i` lies in the q-th bucket of a size from `start` on. */
  predicate InBucket(start: nat, size: nat, q: nat, i: int) { start + q * size <= i < start + q * size + size }

  lemma NextBucket(start: nat, size: nat, q: nat, i: int)
    ensures InBucket(start + size, size, q, i) <==> InBucket(start, size, q + 1, i)
  {
    assert (q + 1) * size == q * size + size;
  }

  /** Indexes of a lowest and a highest point of the bucket of index `i`. */
  predicate Brackets(curve: seq<Point>, start: nat, size: nat, q: nat, i: int, lo: int, hi: int) {
    && 0 <= lo < |curve| && 0 <= hi < |curve|
    && InBucket(start, size, q, i) && InBucket(start, size, q, lo) && InBucket(start, size, q, hi)
    && forall x :: 0 <= x < |curve| && InBucket(start, size, q, x) ==> curve[lo].1 <= curve[x].1 <= curve[hi].1
  }

  lemma FirstBucketBrackets(curve: seq<Point>, start: nat, size: nat, i: nat)
    requires size > 0 && start <= i < BucketEnd(curve, start, size)
    ensures var stop := BucketEnd(curve, start, size);
            Brackets(curve, start, size, 0, i, ArgMin(curve, start, stop), ArgMax(curve, start, stop))
  {
  }

  lemma BracketsShift(curve: seq<Point>, start: nat, size: nat, q: nat, i: int, lo: int, hi: int)
    requires Brackets(curve, start + size, size, q, i, lo, hi)
    ensures Brackets(curve, start, size, q + 1, i, lo, hi)
  {
    NextBucket(start, size, q, i);
    NextBucket(start, size, q, lo);
    NextBucket(start, size, q, hi);
    forall x | 0 <= x < |curve| && InBucket(start, size, q + 1, x)
      ensures curve[lo].1 <= curve[x].1 <= curve[hi].1
    {
      NextBucket(start, size, q, x);
    }
  }

  /** Of the bucket of every index from `start` on, the lowest and the highest are kept. */
  lemma {:induction false} ExtremesBracket(curve: seq<Point>, start: nat, size: nat, i: nat)
    returns (low: nat, high: nat, q: nat)
    requires size > 0 && start <= i < |curve|
    ensures var kept := Extremes(curve, start, size);
            low < |kept| && high < |kept| && Brackets(curve, start, size, q, i, kept[low], kept[high])
    decreases |curve| - start
  {
    hide ArgMin, ArgMax, Brackets, InBucket;
    if i < BucketEnd(curve, start, size) {
      FirstBucketBrackets(curve, start, size, i);
      low, high, q := 0, 1, 0;
    } else {
      low, high, q := ExtremesBracket(curve, start + size, size, i);
      var kept := Extremes(curve, start + size, size);
      BracketsShift(curve, start, size, q, i, kept[low], kept[high]);
      low, high, q := low + 2, high + 2, q + 1;
    }
  }

  /** The points of a curve at some indexes, in index order. */
  function Pick(curve: seq<Point>, indexes: seq<int>): seq<Point>
    requires InRange(indexes, |curve|)
  {
    seq(|indexes|, k requires 0 <= k < |indexes| => curve[indexes[k]])
  }

  lemma KeptInRange(curve: seq<Point>, maxPoints: int)
    requires curve != []
    ensures InRange(KeptIndexes(curve, maxPoints), |curve|)
    ensures InRange(Sorted(KeptIndexes(curve, maxPoints)), |curve|)
  {
    BucketsCover(|curve|, maxPoints);
    ExtremesInRange(curve, 0, BucketSize(|curve|, maxPoints));
    SortedInRange(KeptIndexes(curve, maxPoints), |curve|);
  }

  lemma SortedInRange(xs: seq<int>, n: nat)
    requires InRange(xs, n)
    ensures InRange(Sorted(xs), n)
  {
    SortedIsSorted(xs);
    var r := Sorted(xs);
    forall k | 0 <= k < |r|
      ensures 0 <= r[k] < n
    {
      assert Has(r, r[k]);
      var j :| 0 <= j < |xs| && xs[j] == r[k];
    }
  }

  function Downsampled(curve: seq<Point>, maxPoints: int): seq<Point>
    requires curve != [] || maxPoints >= 0
  {
    if |curve| <= maxPoints then curve
    else
      KeptInRange(curve, maxPoints);
      Pick(curve, Sorted(KeptIndexes(curve, maxPoints)))
  }

  /** Keeps the first and last point and, in each bucket of consecutive points, the lowest and the
      highest; short curves are returned whole. */
  method DownsampleEquityCurve(curve: seq<Point>, maxPoints: int) returns (r: seq<Point>)
    requires curve != [] || maxPoints >= 0
    ensures r == Downsampled(curve, maxPoints)
  {
    if |curve| <= maxPoints {
      return curve;
    }
    BucketsCover(|curve|, maxPoints);
    KeptInRange(curve, maxPoints);
    var kept := Keep(curve, BucketSize(|curve|, maxPoints));
    assert kept == KeptIndexes(curve, maxPoints);
    hide KeptIndexes, Sorted, Extremes;
    r := Pick(curve, Sorted(kept));
  }

  /** Fills the dictionary of kept points, bucket by bucket. */
  method Keep(curve: seq<Point>, size: nat) returns (kept: seq<int>)
    requires curve != [] && size > 0
    ensures kept == [0, |curve| - 1] + Extremes(curve, 0, size)
  {
    hide ArgMin, ArgMax;
    kept := [0, |curve| - 1];
    var start := 0;
    while start < |curve|
      invariant 0 <= start
      invariant kept + Extremes(curve, start, size) == [0, |curve| - 1] + Extremes(curve, 0, size)
      decreases |curve| - start
    {
      var stop := BucketEnd(curve, start, size);
      kept := kept + [ArgMin(curve, start, stop), ArgMax(curve, start, stop)];
      start := start + size;
    }
    assert kept == kept + Extremes(curve, start, size);
  }

  predicate Picks(r: seq<Point>, curve: seq<Point>, indexes: seq<int>) {
    && Ascending(indexes) && InRange(indexes, |curve|) && |indexes| == |r|
    && forall k :: 0 <= k < |r| ==> r[k] == curve[indexes[k]]
  }

  /** `r` is a subsequence of `curve`, picked in index order. */
  ghost predicate Subsequence(r: seq<Point>, curve: seq<Point>) {
    exists indexes: seq<int> :: Picks(r, curve, indexes)
  }

  /** A kept index appears in the result. */
  lemma KeptAppears(curve: seq<Point>, maxPoints: int, k: nat) returns (at: nat)
    requires curve != [] && |curve| > maxPoints && k < |KeptIndexes(curve, maxPoints)|
    ensures 0 <= KeptIndexes(curve, maxPoints)[k] < |curve|
    ensures at < |Downsampled(curve, maxPoints)| && Downsampled(curve, maxPoints)[at] == curve[KeptIndexes(curve, maxPoints)[k]]
    ensures |Sorted(KeptIndexes(curve, maxPoints))| == |Downsampled(curve, maxPoints)|
    ensures Sorted(KeptIndexes(curve, maxPoints))[at] == KeptIndexes(curve, maxPoints)[k]
  {
    KeptInRange(curve, maxPoints);
    hide KeptIndexes, Sorted;
    var kept := KeptIndexes(curve, maxPoints);
    SortedIsSorted(kept);
    assert Has(kept, kept[k]);
    at :| 0 <= at < |Sorted(kept)| && Sorted(kept)[at] == kept[k];
  }

  lemma EndsOfRange(sorted: seq<int>, n: nat, first: nat, last: nat)
    requires Ascending(sorted) && InRange(sorted, n) && first < |sorted| && last < |sorted|
    requires sorted[first] == 0 && sorted[last] == n - 1
    ensures first == 0 && last == |sorted| - 1
  {
    assert 0 <= sorted[0] && sorted[|sorted| - 1] <= n - 1;
  }

  lemma WholeCurveIsPicked(curve: seq<Point>)
    ensures Subsequence(curve, curve)
  {
    assert Picks(curve, curve, seq(|curve|, i => i));
  }

  lemma KeptStartsWithEnds(curve: seq<Point>, maxPoints: int)
    requires curve != []
    ensures var kept := KeptIndexes(curve, maxPoints); |kept| >= 2 && kept[0] == 0 && kept[1] == |curve| - 1
  {
  }

  lemma PickIsSubsequence(curve: seq<Point>, indexes: seq<int>)
    requires Ascending(indexes) && InRange(indexes, |curve|)
    ensures Subsequence(Pick(curve, indexes), curve)
  {
    assert Picks(Pick(curve, indexes), curve, indexes);
  }

  lemma DownsampledPicks(curve: seq<Point>, maxPoints: int)
    requires curve != [] && |curve| > maxPoints
    ensures Subsequence(Downsampled(curve, maxPoints), curve)
  {
    KeptInRange(curve, maxPoints);
    hide KeptIndexes, Sorted, Subsequence;
    SortedIsSorted(KeptIndexes(curve, maxPoints));
    PickIsSubsequence(curve, Sorted(KeptIndexes(curve, maxPoints)));
  }

  lemma DownsampledEnds(curve: seq<Point>, maxPoints: int)
    requires curve != [] && |curve| > maxPoints
    ensures var r := Downsampled(curve, maxPoints);
            r != [] && r[0] == curve[0] && r[|r| - 1] == curve[|curve| - 1]
  {
    KeptStartsWithEnds(curve, maxPoints);
    hide KeptIndexes, Sorted, Downsampled;
    var kept := KeptIndexes(curve, maxPoints);
    KeptInRange(curve, maxPoints);
    SortedIsSorted(kept);
    var first := KeptAppears(curve, maxPoints, 0);
    var last := KeptAppears(curve, maxPoints, 1);
    EndsOfRange(Sorted(kept), |curve|, first, last);
  }

  /** What the stored curve preserves: index order and both ends. */
  lemma DownsamplingKeepsOrderAndEnds(curve: seq<Point>, maxPoints: int)
    requires curve != []
    ensures Subsequence(Downsampled(curve, maxPoints), curve)
    ensures var r := Downsampled(curve, maxPoints);
            r != [] && r[0] == curve[0] && r[|r| - 1] == curve[|curve| - 1]
  {
    hide KeptIndexes, Subsequence;
    if |curve| <= maxPoints {
      WholeCurveIsPicked(curve);
    } else {
      DownsampledPicks(curve, maxPoints);
      DownsampledEnds(curve, maxPoints);
    }
  }

  /** The buckets are as small as they may be: of (maxPoints - 2) / 2 equal ones, at least one, that
      together hold all points. */
  lemma BucketSizeIsLeast(n: nat, maxPoints: int)
    requires n > 0
    ensures var count := if maxPoints < 6 then 1 else (maxPoints - 2) / 2;
            var size := BucketSize(n, maxPoints);
            size * count >= n && (size - 1) * count < n
  {
    BucketsCover(n, maxPoints);
  }

  /** The stored curve has the lowest and the highest point of the bucket of every point. */
  lemma DownsamplingKeepsExtremes(curve: seq<Point>, maxPoints: int, i: nat)
    returns (a: nat, b: nat, lo: nat, hi: nat, q: nat)
    requires i < |curve| && |curve| > maxPoints
    ensures var (r, size) := (Downsampled(curve, maxPoints), BucketSize(|curve|, maxPoints));
            && size > 0 && Brackets(curve, 0, size, q, i, lo, hi)
            && a < |r| && b < |r| && r[a] == curve[lo] && r[b] == curve[hi]
  {
    BucketsCover(|curve|, maxPoints);
    var size := BucketSize(|curve|, maxPoints);
    assert KeptIndexes(curve, maxPoints)[2..] == Extremes(curve, 0, size);
    hide KeptIndexes, Extremes, Downsampled, BucketSize, InBucket;
    var low, high;
    low, high, q := ExtremesBracket(curve, 0, size, i);
    lo, hi := Extremes(curve, 0, size)[low], Extremes(curve, 0, size)[high];
    assert KeptIndexes(curve, maxPoints)[low + 2] == lo;
    assert KeptIndexes(curve, maxPoints)[high + 2] == hi;
    a := KeptAppears(curve, maxPoints, low + 2);
    b := KeptAppears(curve, maxPoints, high + 2);
  }

  /** No peak or trough is lost: the stored curve has points at least as low and at least as high as
      every original point. */
  lemma DownsamplingBracketsPoint(curve: seq<Point>, maxPoints: int, i: nat)
    requires i < |curve|
    ensures exists a :: 0 <= a < |Downsampled(curve, maxPoints)| && Downsampled(curve, maxPoints)[a].1 <= curve[i].1
    ensures exists b :: 0 <= b < |Downsampled(curve, maxPoints)| && curve[i].1 <= Downsampled(curve, maxPoints)[b].1
  {
    var r := Downsampled(curve, maxPoints);
    if |curve| > maxPoints {
      var a, b, lo, hi, q := DownsamplingKeepsExtremes(curve, maxPoints, i);
      assert r[a].1 <= curve[i].1 && curve[i].1 <= r[b].1;
    } else {
      assert r[i] == curve[i];
    }
  }

  /** Four points, all of which must be kept. */
  const ZIGZAG: seq<Point> := [(0, 1.0), (1, 0.0), (2, 3.0), (3, 2.0)]

  /** The bound is exact: `maxPoints` limits every curve if and only if it is at least 4. Below
      that the first, last, lowest and highest point can all be different. */
  lemma BoundHoldsFromFour(maxPoints: nat)
    ensures maxPoints >= 4 <==> forall curve: seq<Point> :: |Downsampled(curve, maxPoints)| <= maxPoints
  {
    if maxPoints >= 4 {
      forall curve: seq<Point>
        ensures |Downsampled(curve, maxPoints)| <= maxPoints
      {
        DownsamplingIsBounded(curve, maxPoints);
      }
    } else {
      ZigzagKeepsFour(maxPoints);
      assert |Downsampled(ZIGZAG, maxPoints)| > maxPoints;
    }
  }

  lemma DownsamplingIsBounded(curve: seq<Point>, maxPoints: nat)
    requires maxPoints >= 4
    ensures |Downsampled(curve, maxPoints)| <= maxPoints
  {
    if |curve| > maxPoints {
      BucketsCover(|curve|, maxPoints);
      ExtremesAreFew(curve, 0, BucketSize(|curve|, maxPoints), BucketCount(maxPoints));
      SortedIsSorted(KeptIndexes(curve, maxPoints));
    }
  }

  lemma ZigzagKeepsFour(maxPoints: nat)
    requires maxPoints < 4
    ensures |Downsampled(ZIGZAG, maxPoints)| == 4
  {
    assert BucketSize(4, maxPoints) == 4;
    assert ArgMin(ZIGZAG, 0, 4) == 1;
    assert ArgMax(ZIGZAG, 0, 4) == 2;
    assert KeptIndexes(ZIGZAG, maxPoints) == [0, 3, 1, 2];
    hide KeptIndexes;
    assert Sorted([0]) == [0];
    assert [0, 3][..1] == [0];
    assert Sorted([0, 3]) == [0, 3];
    assert [0, 3, 1][..2] == [0, 3];
    assert Sorted([0, 3, 1]) == [0, 1, 3];
    assert [0, 3, 1, 2][..3] == [0, 3, 1];
    assert Insert([3], 2) == [2, 3];
    assert Insert([1, 3], 2) == [1, 2, 3];
    assert Sorted([0, 3, 1, 2]) == [0, 1, 2, 3];
  }
}
