/** The replay as it runs: one mutable state object, updated fill by fill and bar by bar
    (app/trading/application/backtest_replay.py). Each method is proved to take the state where the
    functions of ReplaySpec say. */
module BacktestReplay {
  import opened Wrappers
  import opened BacktestFill
  import opened ReplaySpec

  class ReplayState {
    var cash: real
    var position: Option<Position>
    var openedAt: Option<Time>
    var dayStartDate: Option<int>
    var dayStartEquity: real
    var weekStartDate: Option<int>
    var weekStartEquity: real
    var peakEquity: real
    var consecutiveLosses: int
    var lastOrderTime: Option<Time>
    var stopPrice: Option<real>
    var takeProfitPrice: Option<real>
    var trailDistance: Option<real>
    var highestSinceEntry: Option<real>
    var openEntryFees: real
    var trades: seq<TradeRecord>
    var curve: seq<(Time, real)>
    var nextSequenceNo: int
    var lockSince: Option<Time>
    ghost var fills: seq<Fill>

    ghost function Now(): State
      reads this
    {
      State(cash, position, openedAt, dayStartDate, dayStartEquity, weekStartDate, weekStartEquity, peakEquity,
            consecutiveLosses, lastOrderTime, stopPrice, takeProfitPrice, trailDistance, highestSinceEntry,
            openEntryFees, trades, curve, nextSequenceNo, lockSince, fills)
    }

    constructor (initialEquity: real)
      ensures Now() == Initial(initialEquity)
    {
      cash, position, openedAt := initialEquity, None, None;
      dayStartDate, dayStartEquity, weekStartDate, weekStartEquity := None, 0.0, None, 0.0;
      peakEquity, consecutiveLosses, lastOrderTime := 0.0, 0, None;
      stopPrice, takeProfitPrice, trailDistance, highestSinceEntry := None, None, None, None;
      openEntryFees, trades, curve, nextSequenceNo, lockSince, fills := 0.0, [], [], 1, None, [];
    }

    /** Records the trade a fill closes, with its share of the entry fees. */
    method RecordClose(fill: Fill, side: OrderSide, now: Time, realized: real, reason: ExitReason)
      requires Closes(position, side) && openedAt.Some? && position.value.quantity != 0.0
      modifies this
      ensures Now() == RecordTrade(old(Now()), fill, side, now, realized, reason)
    {
      hide ClosingFee, ClosingQuantity;
      var closingQuantity := ClosingQuantity(position, fill, side);
      var entryFeeShare := openEntryFees * closingQuantity / position.value.quantity;
      assert entryFeeShare == EntryFeeShare(Now(), fill, side);
      hide EntryFeeShare;
      openEntryFees := openEntryFees - entryFeeShare;
      trades := trades + [TradeRecord(nextSequenceNo, side, openedAt.value, now, position.value.averageEntryPrice, fill.price,
                                      closingQuantity, ClosingFee(position, fill, side) + entryFeeShare, realized, reason)];
      nextSequenceNo := nextSequenceNo + 1;
      consecutiveLosses := if realized < 0.0 then consecutiveLosses + 1 else 0;
    }

    /** A flat account forgets its entry time, its levels and its entry fees. */
    method Forget()
      modifies this
      ensures Now() == old(Now()).(openedAt := None, stopPrice := None, takeProfitPrice := None, trailDistance := None,
                                   highestSinceEntry := None, openEntryFees := 0.0)
    {
      openedAt, stopPrice, takeProfitPrice, trailDistance, highestSinceEntry := None, None, None, None, None;
      openEntryFees := 0.0;
    }

    /** Installs the position a fill leaves. */
    method Install(after: Option<Position>, now: Time)
      modifies this
      ensures Now() == InstallPosition(old(Now()), after, now)
    {
      var openedFromFlat := position.None? && after.Some?;
      var flipped := after.Some? && position.Some? && after.value.side != position.value.side;
      if openedFromFlat || flipped {
        openedAt := Some(now);
      } else if after.None? {
        Forget();
      }
      position := after;
    }

    /** Applies one fill and records the trade it closes. An error stands for a raised exception. */
    method ApplyFill(fill: Fill, side: OrderSide, now: Time, allowShort: bool, reason: ExitReason)
      returns (r: Result<(), Error>)
      modifies this
      ensures var spec := ApplyAndRecord(old(Now()), fill, side, now, allowShort, reason);
              if r.Ok? then spec == Ok(Now()) else spec == Err(r.error)
    {
      hide ClosingFee, ClosingQuantity, EntryFeeShare, SignedNotional, ApplyFillToPosition, RecordTrade, InstallPosition;
      var outcome :- ApplyFillToPosition(position, fill, side, allowShort);
      var closes := Closes(position, side);
      if closes && openedAt.None? {
        return Err(AssertionFailed);
      }
      if closes && position.value.quantity == 0.0 {
        return Err(DivisionByZero);
      }
      var closingFee := ClosingFee(position, fill, side);
      cash := cash + (SignedNotional(fill, side) - fill.feeAmount);
      fills := fills + [fill];
      if closes {
        RecordClose(fill, side, now, outcome.realizedPnl, reason);
      }
      openEntryFees := openEntryFees + (fill.feeAmount - closingFee);
      assert Now() == Book(old(Now()), fill, side, now, outcome.realizedPnl, reason);
      Install(outcome.position, now);
      return Ok(());
    }

    method FollowNewHigh(bar: Bar)
      modifies this
      ensures Now() == RaiseTrailingStop(old(Now()), bar)
    {
      if trailDistance.None? || highestSinceEntry.None? || stopPrice.None? || position.None? || position.value.side != Long {
        return;
      }
      highestSinceEntry := Some(MaxReal(highestSinceEntry.value, bar.high));
      stopPrice := Some(MaxReal(stopPrice.value, highestSinceEntry.value - trailDistance.value));
    }

    method ReleaseLock(cfg: Config, now: Time, equity: real, releaseAfter: int)
      modifies this
      ensures Now() == ReleaseExpiredLock(cfg, old(Now()), now, equity, releaseAfter)
    {
      var streakLocked := consecutiveLosses > cfg.streakLimit;
      var drawdownLocked := peakEquity > 0.0 && (peakEquity - equity) / peakEquity > cfg.drawdownLimit;
      if !(streakLocked || drawdownLocked) {
        lockSince := None;
        return;
      }
      if lockSince.None? {
        lockSince := Some(now);
        return;
      }
      if now - lockSince.value >= releaseAfter {
        consecutiveLosses := 0;
        peakEquity := equity;
        lockSince := None;
      }
    }

    /** Checks the bar's probes in order, until one closes the position or none is left. */
    method CheckStops(cfg: Config, probes: seq<Bar>) returns (r: Result<(), Error>)
      modifies this
      ensures var spec := RunProbes(cfg, old(Now()), probes);
              if r.Ok? then spec == Ok(Now()) else spec == Err(r.error)
    {
      hide ApplyAndRecord, SimulateFill, ProtectiveExit, SlippedStopPrice, RaiseTrailingStop;
      var k := 0;
      while k < |probes|
        invariant 0 <= k <= |probes|
        invariant RunProbes(cfg, Now(), probes[k..]) == RunProbes(cfg, old(Now()), probes)
      {
        var probe := probes[k];
        assert probes[k..][1..] == probes[k + 1..];
        if cfg.policy == SignalOnly || position.None? || stopPrice.None? {
          return Ok(());
        }
        var held := position.value;
        var hit := ProtectiveExit(probe, held.side, stopPrice.value, takeProfitPrice);
        if hit.Some? {
          var (exitPrice, reason) := hit.value;
          if reason == ByStop {
            exitPrice := SlippedStopPrice(exitPrice, held.side, cfg.stopSlippage);
          }
          var side := ClosingSide(held.side);
          var fill :- SimulateFill(cfg.exchange, side, exitPrice, held.quantity, cfg.expectedSlippage);
          r := ApplyFill(fill, side, probe.closeTime, AllowShort(cfg.exchange), reason);
          return;
        }
        FollowNewHigh(probe);
        k := k + 1;
      }
      return Ok(());
    }

    /** Notes the equity a new day and a new week start with. */
    method StartWindows(now: Time, equity: real)
      modifies this
      ensures Now() == NoteWindows(old(Now()), now, equity)
    {
      var today := DayOf(now);
      if dayStartDate != Some(today) {
        dayStartDate, dayStartEquity := Some(today), equity;
      }
      var monday := WeekStart(today);
      if weekStartDate != Some(monday) {
        weekStartDate, weekStartEquity := Some(monday), equity;
      }
    }

    method MarkBar(cfg: Config, candle: Candle)
      modifies this
      ensures Now() == Mark(cfg, old(Now()), candle)
    {
      hide NoteWindows, ReleaseExpiredLock, MarketValue, MaxReal;
      var equity := cash + MarketValue(position, candle.close);
      curve := curve + [(candle.closeTime, equity)];
      peakEquity := MaxReal(peakEquity, equity);
      if cfg.lockReleaseDays.Some? {
        ReleaseLock(cfg, candle.closeTime, equity, cfg.lockReleaseDays.value * SECONDS_PER_DAY);
      }
      StartWindows(candle.closeTime, equity);
    }

    /** Sets the protective levels of a position that a fill has just opened. */
    method SetLevels(cfg: Config, before: Option<Position>, action: SignalAction, fillPrice: real, stopDistance: real)
      modifies this
      ensures Now() == PlaceLevels(cfg, before, old(Now()), action, fillPrice, stopDistance)
    {
      hide LevelAt;
      var isNew := position.Some? && (before.None? || before.value.side != position.value.side);
      if cfg.policy != SignalOnly && isNew {
        stopPrice := Some(LevelAt(fillPrice, action, stopDistance, -1.0));
        if cfg.policy == TrailingStop {
          trailDistance := Some(stopDistance);
          highestSinceEntry := Some(fillPrice);
        }
        if cfg.policy == StopAndTarget {
          takeProfitPrice := Some(LevelAt(fillPrice, action, stopDistance, cfg.rewardRisk));
        }
      }
    }

    method TryEntry(cfg: Config, candle: Candle, history: seq<Candle>, action: SignalAction) returns (r: Result<(), Error>)
      requires action != Hold
      modifies this
      ensures var spec := Enter(cfg, old(Now()), candle, history, action);
              if r.Ok? then spec == Ok(Now()) else spec == Err(r.error)
    {
      hide MarketValue, UnrealizedPnl, MaxReal, ApplyAndRecord, SimulateFill, PlaceLevels;
      var stopDistance := cfg.stopDistance(history);
      if cfg.exchange.Other? {
        return Err(UnsupportedExchange);
      }
      var minutes := if lastOrderTime.Some? then Some((candle.closeTime - lastOrderTime.value) as real / 60.0) else None;
      var input := RiskInput(
                     action, candle.closeTime, candle.close, stopDistance, cfg.expectedSlippage,
                     if cfg.exchange == Oanda then 0.0 else candle.close * cfg.feeRate,
                     cash + MarketValue(position, candle.close), cash,
                     MaxReal(0.0, -UnrealizedPnl(position, candle.close)),
                     position.Some?, if position.Some? then position.value.quantity else 0.0,
                     dayStartEquity, weekStartEquity, peakEquity, consecutiveLosses, minutes);
      assert input == RiskInputOf(cfg, Now(), candle, action, stopDistance);
      hide RiskInputOf;
      var verdict := cfg.gate(input);
      if verdict.Deny? {
        return Ok(());
      }
      var side := OrderSideOf(action);
      var fill :- SimulateFill(cfg.exchange, side, candle.close, verdict.quantity, cfg.expectedSlippage);
      var before := position;
      var _ :- ApplyFill(fill, side, candle.closeTime, AllowShort(cfg.exchange), BySignal);
      lastOrderTime := Some(candle.closeTime);
      SetLevels(cfg, before, action, fill.price, stopDistance);
      return Ok(());
    }

    method FollowSignal(cfg: Config, candle: Candle, history: seq<Candle>) returns (r: Result<(), Error>)
      modifies this
      ensures var spec := ActOnSignal(cfg, old(Now()), candle, history);
              if r.Ok? then spec == Ok(Now()) else spec == Err(r.error)
    {
      hide ApplyAndRecord, SimulateFill, Enter;
      var action := cfg.signal(history);
      if Opposes(action, position) {
        var side := OrderSideOf(action);
        var fill :- SimulateFill(cfg.exchange, side, candle.close, position.value.quantity, cfg.expectedSlippage);
        r := ApplyFill(fill, side, candle.closeTime, AllowShort(cfg.exchange), BySignal);
        return;
      }
      if action == Hold {
        return Ok(());
      }
      r := TryEntry(cfg, candle, history, action);
    }

    /** One bar: stop checks, marking, then the signal. */
    method Step(cfg: Config, candles: seq<Candle>, i: nat) returns (r: Result<(), Error>)
      requires i < |candles|
      modifies this
      ensures var spec := EvaluateBar(cfg, old(Now()), candles, i);
              if r.Ok? then spec == Ok(Now()) else spec == Err(r.error)
    {
      hide RunProbes, Mark, ActOnSignal, Probes, History;
      var _ :- CheckStops(cfg, Probes(cfg, candles[i]));
      MarkBar(cfg, candles[i]);
      r := FollowSignal(cfg, candles[i], History(cfg, candles, i));
    }
  }

  /** Evaluates the bars after the warmup in order, until one raises. */
  method RunBars(cfg: Config, candles: seq<Candle>) returns (state: ReplayState, r: Result<(), Error>)
    requires 0 <= cfg.warmup <= |candles|
    ensures var spec := StateAfter(cfg, candles, |candles|);
            if r.Ok? then spec == Ok(state.Now()) else spec == Err(r.error)
  {
    hide EvaluateBar, Initial, ReplayState.Now;
    state := new ReplayState(cfg.initialEquity);
    var i := cfg.warmup;
    while i < |candles|
      invariant cfg.warmup <= i <= |candles|
      invariant fresh(state)
      invariant StateAfter(cfg, candles, i) == Ok(state.Now())
    {
      r := state.Step(cfg, candles, i);
      if r.Err? {
        StopsAtFirstError(cfg, candles, i + 1, |candles|);
        return;
      }
      i := i + 1;
    }
    r := Ok(());
  }

  /** Replays a candle series; the first `warmup` candles are history only. */
  method RunReplay(cfg: Config, candles: seq<Candle>) returns (r: Result<ReplayResult, Error>)
    ensures r == Replay(cfg, candles)
  {
    hide StateAfter, MarketValue;
    if cfg.warmup < 0 {
      return Err(NegativeWarmup);
    }
    if cfg.stopSlippage < 0.0 {
      return Err(NegativeStopSlippage);
    }
    if |candles| <= cfg.warmup {
      return Ok(ReplayResult([], cfg.initialEquity, None, []));
    }
    var state, done := RunBars(cfg, candles);
    var _ :- done;
    r := Ok(ReplayResult(state.trades, state.cash + MarketValue(state.position, candles[|candles| - 1].close),
                         state.position, state.curve));
  }

  /** An exception in one bar ends the run: no later bar changes the outcome. */
  lemma {:induction false} StopsAtFirstError(cfg: Config, candles: seq<Candle>, n: nat, m: nat)
    requires 0 <= cfg.warmup <= n <= m <= |candles| && StateAfter(cfg, candles, n).Err?
    ensures StateAfter(cfg, candles, m) == StateAfter(cfg, candles, n)
  {
    hide EvaluateBar, RunProbes, Probes;
    if n < m {
      StopsAtFirstError(cfg, candles, n, m - 1);
    }
  }
}
