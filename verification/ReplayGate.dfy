/** What a replay tells its risk gate, read off the record: the curve, the trades, and the bars at which
    it bought or sold before. */
module ReplayGate {
  import opened Wrappers
  import opened BacktestFill
  import opened ReplaySpec
  import opened ReplayProperties
  import opened ReplayRuns
  import opened ReplayLedger
  import opened ReplayLocks
  import opened ReplayLevels

  // ----- the last entry -----

  /** Bar `i` opened a position or added to one. */
  predicate Entered(cfg: Config, candles: seq<Candle>, i: nat)
    requires 0 <= cfg.warmup <= i < |candles|
  {
    && AtMark(cfg, candles, i).Ok? && StateAfter(cfg, candles, i + 1).Ok?
    && var (before, after) := (AtMark(cfg, candles, i).value.position, StateAfter(cfg, candles, i + 1).value.position);
    after.Some? && (before.None? || after.value.quantity > before.value.quantity)
  }

  /** When the last bar before bar `n` closed that opened or added. */
  function LastEntry(cfg: Config, candles: seq<Candle>, n: nat): Option<Time>
    requires 0 <= cfg.warmup <= n <= |candles|
  {
    if n == cfg.warmup then None
    else if Entered(cfg, candles, n - 1) then Some(candles[n - 1].closeTime)
    else LastEntry(cfg, candles, n - 1)
  }

  lemma {:induction false} ProbesKeepOrderTime(cfg: Config, s: State, probes: seq<Bar>)
    requires Sound(cfg, s) && RunProbes(cfg, s, probes).Ok?
    ensures RunProbes(cfg, s, probes).value.lastOrderTime == s.lastOrderTime
    decreases |probes|
  {
    if probes != [] && !Unprotected(cfg, s) {
      var hit := ProtectiveExit(probes[0], s.position.value.side, s.stopPrice.value, s.takeProfitPrice);
      hide ProtectiveExit;
      if hit.None? {
        TrailingStopOnlyRises(cfg, s, probes[0]);
        ProbesKeepOrderTime(cfg, RaiseTrailingStop(s, probes[0]), probes[1..]);
      } else {
        ExitIsExact(cfg, s, hit.value, probes[0].closeTime);
        hide ExitAt, Sound;
      }
    }
  }

  lemma SignalMovesOrderTime(cfg: Config, s: State, candle: Candle, history: seq<Candle>, t: State)
    requires s.position.Some? == s.openedAt.Some? && FollowedSignal(cfg, s, candle, history, t)
    ensures t.lastOrderTime ==
            if t.position.Some? && (s.position.None? || t.position.value.quantity > s.position.value.quantity)
            then Some(candle.closeTime) else s.lastOrderTime
  {
    hide RiskInputOf, Executed, FeeFor, LevelsFrom;
  }

  lemma {:induction false} LastOrderIsLastEntry(cfg: Config, candles: seq<Candle>, n: nat)
    requires 0 <= cfg.warmup <= n <= |candles| && StateAfter(cfg, candles, n).Ok?
    ensures StateAfter(cfg, candles, n).value.lastOrderTime == LastEntry(cfg, candles, n)
  {
    hide StateAfter, AtMark, Mark, History, RunProbes, Probes, FollowedSignal, Sound;
    if n == cfg.warmup {
      FirstState(cfg, candles);
    } else {
      var i := n - 1;
      BarsFollowSignals(cfg, candles, i);
      LastOrderIsLastEntry(cfg, candles, i);
      ReplayIsSound(cfg, candles, i);
      ProbedAtMark(cfg, candles, i);
      ProbesKeepOrderTime(cfg, StateAfter(cfg, candles, i).value, Probes(cfg, candles[i]));
      MarkKeepsLevels(cfg, AtMark(cfg, candles, i).value, candles[i]);
      SoundHolds(cfg, AtSignal(cfg, candles, i));
      SignalMovesOrderTime(cfg, AtSignal(cfg, candles, i), candles[i], History(cfg, candles, i),
            StateAfter(cfg, candles, n).value);
    }
  }

  // ----- everything the gate is told -----

  /** The curve through the first `n` points of the record. */
  function CurveOf(points: seq<Point>, n: nat): (curve: seq<(Time, real)>)
    requires n <= |points|
    ensures |curve| == n
  {
    seq(n, k requires 0 <= k < n => (points[k].time, points[k].equity))
  }

  /** The input of the gate at bar `i`, whose point is the n-th, with `held` and `cash` then: equity and
      its day's, week's and highest value since the last release from the curve, the losing streak since
      then from the trades, and the minutes since the last entry. */
  predicate TellsTheRecord(cfg: Config, candles: seq<Candle>, i: nat, m: State, input: RiskInput)
    requires 0 <= cfg.warmup <= i < |candles|
  {
    var (points, n, candle) := (Points(cfg, candles), i - cfg.warmup, candles[i]);
    var f := Restart(cfg, points, n + 1);
    && input.now == candle.closeTime && input.marketPrice == candle.close
    && input.equity == points[n].equity && input.availableCash == m.cash
    && input.dayStartEquity == PeriodStart(CurveOf(points, n + 1), DayPeriod())
    && input.weekStartEquity == PeriodStart(CurveOf(points, n + 1), WeekPeriod())
    && input.peakEquity == Top(points, f, n + 1)
    && input.consecutiveLosses == LossesSince(m.trades, points, f)
    && input.hasOpenPosition == m.position.Some?
    && input.existingQuantity == (if m.position.Some? then m.position.value.quantity else 0.0)
    && input.existingOpenRisk == OpenLoss(m.position, candle.close)
    && input.expectedSlippage == cfg.expectedSlippage
    && input.feeBufferPerUnit == (if cfg.exchange == Oanda then 0.0 else candle.close * cfg.feeRate)
    && (match LastEntry(cfg, candles, i)
        case None => input.minutesSinceLastOrder.None?
        case Some(then') => input.minutesSinceLastOrder == Some((candle.closeTime - then') as real / 60.0))
  }

  /** What a holding has lost at a price; nothing if it has gained. */
  function OpenLoss(position: Option<Position>, price: real): (loss: real)
    ensures loss >= 0.0
  {
    if position.None? then 0.0
    else
      var p := position.value;
      var gain := if p.side == Long then (price - p.averageEntryPrice) * p.quantity
                  else (p.averageEntryPrice - price) * p.quantity;
      if gain < 0.0 then -gain else 0.0
  }

  lemma OpenLossIsNegativePnl(position: Option<Position>, price: real)
    ensures MaxReal(0.0, -UnrealizedPnl(position, price)) == OpenLoss(position, price)
  {
    if position.Some? {
      MirroredGain(price, position.value.averageEntryPrice, position.value.quantity);
    }
  }

  lemma InputOfState(cfg: Config, s: State, candle: Candle, action: SignalAction, distance: real)
    ensures var input := RiskInputOf(cfg, s, candle, action, distance);
            && input.action == action && input.stopDistance == distance
            && input.now == candle.closeTime && input.marketPrice == candle.close
            && input.equity == Equity(s, candle.close) && input.availableCash == s.cash
            && input.dayStartEquity == s.dayStartEquity && input.weekStartEquity == s.weekStartEquity
            && input.peakEquity == s.peakEquity && input.consecutiveLosses == s.consecutiveLosses
            && input.hasOpenPosition == s.position.Some?
            && input.existingQuantity == (if s.position.Some? then s.position.value.quantity else 0.0)
            && input.existingOpenRisk == OpenLoss(s.position, candle.close)
            && input.expectedSlippage == cfg.expectedSlippage
            && input.feeBufferPerUnit == (if cfg.exchange == Oanda then 0.0 else candle.close * cfg.feeRate)
            && input.minutesSinceLastOrder ==
               if s.lastOrderTime.Some? then Some((candle.closeTime - s.lastOrderTime.value) as real / 60.0) else None
  {
    OpenLossIsNegativePnl(s.position, candle.close);
    hide MaxReal, UnrealizedPnl, OpenLoss;
  }

  lemma SignalMatches(cfg: Config, candles: seq<Candle>, i: nat)
    requires 0 <= cfg.warmup <= i < |candles| && AtMark(cfg, candles, i).Ok?
    ensures Matches(cfg, AtSignal(cfg, candles, i), Points(cfg, candles), i - cfg.warmup + 1)
  {
    hide StateAfter, AtMark, Mark, RunProbes, Probes, Sound, ProbedTo, Matches, Equity;
    ProbedAtMark(cfg, candles, i);
    ReplayIsSound(cfg, candles, i);
    var (s, m) := (StateAfter(cfg, candles, i).value, AtMark(cfg, candles, i).value);
    var (points, n, probes) := (Points(cfg, candles), i - cfg.warmup, Probes(cfg, candles[i]));
    RiskMeasuresMatchHistory(cfg, candles, i);
    ProbesCloseWhole(cfg, s, probes);
    ProbesKeepMatch(cfg, s, probes, m, points, n);
    MarkMatches(cfg, m, candles[i], points, n);
  }

  lemma SignalWindows(cfg: Config, candles: seq<Candle>, i: nat)
    requires 0 <= cfg.warmup <= i < |candles| && AtMark(cfg, candles, i).Ok?
    ensures WindowsAgree(AtSignal(cfg, candles, i))
  {
    hide StateAfter, AtMark, Mark, RunProbes, Probes, WindowsAgree, SameWindows;
    ProbedAtMark(cfg, candles, i);
    WindowsMatchHistory(cfg, candles, i);
    ProbesKeepWindows(cfg, StateAfter(cfg, candles, i).value, Probes(cfg, candles[i]));
    SameWindowsAgree(StateAfter(cfg, candles, i).value, AtMark(cfg, candles, i).value);
    MarkMovesWindows(cfg, AtMark(cfg, candles, i).value, candles[i]);
  }

  lemma CurveKept(cfg: Config, s: State, probes: seq<Bar>, m: State)
    requires ProbedTo(cfg, s, probes, m)
    ensures m.curve == s.curve
  {
  }

  lemma CurveGrows(curve: seq<(Time, real)>, points: seq<Point>, n: nat)
    requires n == |curve| && n < |points| && forall k :: 0 <= k < n ==> curve[k] == (points[k].time, points[k].equity)
    ensures curve + [(points[n].time, points[n].equity)] == CurveOf(points, n + 1)
  {
  }

  lemma SignalCurve(cfg: Config, candles: seq<Candle>, i: nat)
    requires 0 <= cfg.warmup <= i < |candles| && AtMark(cfg, candles, i).Ok?
    ensures var (s, points, n) := (AtSignal(cfg, candles, i), Points(cfg, candles), i - cfg.warmup);
            && s.curve == CurveOf(points, n + 1) && Equity(s, candles[i].close) == points[n].equity
            && s.lastOrderTime == LastEntry(cfg, candles, i)
  {
    hide StateAfter, AtMark, Mark, RunProbes, Probes, Sound, ProbedTo, LastEntry, CurveOf;
    ProbedAtMark(cfg, candles, i);
    ReplayIsSound(cfg, candles, i);
    var (s, m) := (StateAfter(cfg, candles, i).value, AtMark(cfg, candles, i).value);
    LastOrderIsLastEntry(cfg, candles, i);
    PointsAreRecorded(cfg, candles, i);
    ProbesCloseWhole(cfg, s, Probes(cfg, candles[i]));
    CurveKept(cfg, s, Probes(cfg, candles[i]), m);
    ProbesKeepOrderTime(cfg, s, Probes(cfg, candles[i]));
    MarkKeepsLevels(cfg, m, candles[i]);
    MarkEffect(cfg, m, candles[i]);
    CurveGrows(s.curve, Points(cfg, candles), i - cfg.warmup);
  }

  /** At every bar the gate is told exactly what is on record. */
  lemma GateIsToldTheRecord(cfg: Config, candles: seq<Candle>, i: nat, action: SignalAction, distance: real)
    requires 0 <= cfg.warmup <= i < |candles| && AtMark(cfg, candles, i).Ok?
    ensures var input := RiskInputOf(cfg, AtSignal(cfg, candles, i), candles[i], action, distance);
            && input.action == action && input.stopDistance == distance
            && TellsTheRecord(cfg, candles, i, AtMark(cfg, candles, i).value, input)
  {
    hide StateAfter, AtMark, Mark, RiskInputOf, Points, LastEntry, Restart, StreakStart, Top, LossesSince, OpenLoss, Equity,
      PeriodStart, CurveOf;
    InputOfState(cfg, AtSignal(cfg, candles, i), candles[i], action, distance);
    MarkKeepsLevels(cfg, AtMark(cfg, candles, i).value, candles[i]);
    SignalMatches(cfg, candles, i);
    SignalWindows(cfg, candles, i);
    SignalCurve(cfg, candles, i);
  }
}
