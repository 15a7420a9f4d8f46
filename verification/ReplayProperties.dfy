/** What every reachable replay state satisfies: whole round trips, protective levels, trade times,
    and the measures the risk gate is fed. */
module ReplayProperties {
  import opened Wrappers
  import opened BacktestFill
  import opened ReplaySpec

  /** The levels a policy keeps while a position is open, and only then. */
  predicate LevelsMatchPolicy(cfg: Config, s: State) {
    var held := s.position.Some?;
    && (s.stopPrice.Some? <==> held && cfg.policy != SignalOnly)
    && (s.takeProfitPrice.Some? <==> held && cfg.policy == StopAndTarget)
    && (s.trailDistance.Some? <==> held && cfg.policy == TrailingStop)
    && (s.highestSinceEntry.Some? <==> held && cfg.policy == TrailingStop)
    && (held && cfg.policy == TrailingStop && s.position.value.side == Long ==>
          s.stopPrice.value == s.highestSinceEntry.value - s.trailDistance.value)
  }

  predicate Sound(cfg: Config, s: State) {
    && s.position.Some? == s.openedAt.Some?
    && (s.position.Some? ==> s.position.value.quantity > 0.0)
    && (s.position.Some? && !AllowShort(cfg.exchange) ==> s.position.value.side == Long)
    && LevelsMatchPolicy(cfg, s)
    && s.nextSequenceNo == |s.trades| + 1
    && (forall i :: 0 <= i < |s.trades| ==> s.trades[i].sequenceNo == i + 1)
  }

  /** `t` follows `s` by one trade that closes everything `s` held, and leaves the account flat. */
  predicate ClosedWhole(s: State, t: State) {
    && s.position.Some? && t.position.None?
    && |t.trades| == |s.trades| + 1 && s.trades <= t.trades
    && var trade := t.trades[|s.trades|];
    && trade.quantity == s.position.value.quantity
    && trade.entryPrice == s.position.value.averageEntryPrice
    && trade.side == ClosingSide(s.position.value.side)
    && Some(trade.entryTime) == s.openedAt
  }

  // ----- the only two ways a replay applies a fill -----

  lemma ClosingFill(cfg: Config, s: State, fill: Fill, now: Time, reason: ExitReason)
    requires Sound(cfg, s) && s.position.Some? && fill.quantity == s.position.value.quantity
    ensures var r := ApplyAndRecord(s, fill, ClosingSide(s.position.value.side), now, AllowShort(cfg.exchange), reason);
            && r.Ok? && Sound(cfg, r.value) && ClosedWhole(s, r.value)
            && r.value.trades[|s.trades|].exitTime == now && r.value.trades[|s.trades|].exitReason == reason
            && r.value.peakEquity == s.peakEquity && r.value.curve == s.curve && r.value.lockSince == s.lockSince
            && r.value.consecutiveLosses == if r.value.trades[|s.trades|].realizedPnl < 0.0 then s.consecutiveLosses + 1 else 0
  {
  }

  lemma OpeningFill(cfg: Config, s: State, fill: Fill, side: OrderSide, now: Time)
    requires Sound(cfg, s) && !Closes(s.position, side) && fill.quantity > 0.0
    requires s.position.None? && side == Sell ==> AllowShort(cfg.exchange)
    ensures var r := ApplyAndRecord(s, fill, side, now, AllowShort(cfg.exchange), BySignal);
            && r.Ok? && r.value.position.Some? && r.value.trades == s.trades && r.value.position.value.quantity > 0.0
            && r.value.position.value.side == OpeningSide(side)
            && r.value.openedAt == (if s.position.None? then Some(now) else s.openedAt)
            && r.value.stopPrice == s.stopPrice && r.value.takeProfitPrice == s.takeProfitPrice
            && r.value.trailDistance == s.trailDistance && r.value.highestSinceEntry == s.highestSinceEntry
            && r.value.nextSequenceNo == s.nextSequenceNo && r.value.consecutiveLosses == s.consecutiveLosses
            && r.value.peakEquity == s.peakEquity && r.value.curve == s.curve && r.value.lockSince == s.lockSince
  {
  }

  // ----- where a stop or a target fills -----

  predicate RangesOverOpen(bar: Bar) { bar.low <= bar.open <= bar.high }

  /** Whether the price went through a level, and on which side of it the level waits. */
  predicate FellTo(bar: Bar, level: real) { bar.low <= level }

  predicate RoseTo(bar: Bar, level: real) { bar.high >= level }

  /** For a bar whose open lies in its range: the stop is hit exactly if the range reaches it, and
      then the target does not matter; a hit fills at the level, or at the open beyond it. */
  lemma ExitAssumesTheLoss(bar: Bar, stop: real, target: Option<real>)
    requires RangesOverOpen(bar)
    ensures ProtectiveExit(bar, Long, stop, target) ==
            if FellTo(bar, stop) then Some((MinReal(bar.open, stop), ByStop))
            else if target.Some? && RoseTo(bar, target.value) then Some((MaxReal(bar.open, target.value), ByTarget))
            else None
    ensures ProtectiveExit(bar, Short, stop, target) ==
            if RoseTo(bar, stop) then Some((MaxReal(bar.open, stop), ByStop))
            else if target.Some? && FellTo(bar, target.value) then Some((MinReal(bar.open, target.value), ByTarget))
            else None
  {
  }

  /** Slippage is never in the holder's favour: a stop fills at its level or worse. */
  lemma StopNeverFillsBetter(cfg: Config, s: State, bar: Bar)
    requires Sound(cfg, s) && !Unprotected(cfg, s) && cfg.stopSlippage >= 0.0 && cfg.expectedSlippage >= 0.0
    requires var hit := ProtectiveExit(bar, s.position.value.side, s.stopPrice.value, s.takeProfitPrice);
             hit.Some? && hit.value.1 == ByStop && hit.value.0 >= 0.0 && ExitAt(cfg, s, hit.value, bar.closeTime).Ok?
    ensures var t := ExitAt(cfg, s, ProtectiveExit(bar, s.position.value.side, s.stopPrice.value,
          s.takeProfitPrice).value, bar.closeTime).value;
            && |t.trades| == |s.trades| + 1
            && (s.position.value.side == Long ==> t.trades[|s.trades|].exitPrice <= s.stopPrice.value)
            && (s.position.value.side == Short ==> t.trades[|s.trades|].exitPrice >= s.stopPrice.value)
  {
    var side := s.position.value.side;
    var hit := ProtectiveExit(bar, side, s.stopPrice.value, s.takeProfitPrice).value;
    SlippageHurts(hit.0, cfg.stopSlippage);
    var fill := SimulateFill(cfg.exchange, ClosingSide(side), SlippedStopPrice(hit.0, side, cfg.stopSlippage),
                             s.position.value.quantity, cfg.expectedSlippage).value;
    ClosingFill(cfg, s, fill, bar.closeTime, ByStop);
    hide FeeBuffer, SlippedStopPrice, ClosingFee, EntryFeeShare, SignedNotional, ClosingQuantity;
  }

  lemma SlippageHurts(price: real, slippage: real)
    requires price >= 0.0 && slippage >= 0.0
    ensures SlippedStopPrice(price, Long, slippage) <= price <= SlippedStopPrice(price, Short, slippage)
  {
    assert price * slippage >= 0.0;
  }

  // ----- stop checks -----

  /** What checking one decision bar's probes can do: nothing but raise a trailing stop, or close
      the whole holding at a time of one of the probes. */
  predicate ProbedTo(cfg: Config, s: State, probes: seq<Bar>, t: State) {
    && Sound(cfg, t)
    && t.peakEquity == s.peakEquity && t.curve == s.curve && t.lockSince == s.lockSince
    && (if t.trades == s.trades then
          && t.position == s.position && t.openedAt == s.openedAt && t.consecutiveLosses == s.consecutiveLosses
          && t.trailDistance == s.trailDistance && t.takeProfitPrice == s.takeProfitPrice
          && t.stopPrice.Some? == s.stopPrice.Some?
          && (s.stopPrice.Some? && s.position.Some? && s.position.value.side == Long ==> t.stopPrice.value >= s.stopPrice.value)
          && (s.position.Some? && s.position.value.side == Short ==> t.stopPrice == s.stopPrice)
        else
          && ClosedWhole(s, t)
          && (exists k :: 0 <= k < |probes| && t.trades[|s.trades|].exitTime == probes[k].closeTime)
          && t.consecutiveLosses == (if t.trades[|s.trades|].realizedPnl < 0.0 then s.consecutiveLosses + 1 else 0))
  }

  lemma TrailingStopOnlyRises(cfg: Config, s: State, bar: Bar)
    requires Sound(cfg, s)
    ensures ProbedTo(cfg, s, [], RaiseTrailingStop(s, bar))
  {
  }

  lemma {:induction false} ProbesCloseWhole(cfg: Config, s: State, probes: seq<Bar>)
    requires Sound(cfg, s) && RunProbes(cfg, s, probes).Ok?
    ensures ProbedTo(cfg, s, probes, RunProbes(cfg, s, probes).value)
    decreases |probes|
  {
    if probes != [] && !Unprotected(cfg, s) {
      var hit := ProtectiveExit(probes[0], s.position.value.side, s.stopPrice.value, s.takeProfitPrice);
      if hit.None? {
        var s1 := RaiseTrailingStop(s, probes[0]);
        TrailingStopOnlyRises(cfg, s, probes[0]);
        ProbesCloseWhole(cfg, s1, probes[1..]);
        var t := RunProbes(cfg, s1, probes[1..]).value;
        if t.trades != s.trades {
          var k :| 0 <= k < |probes[1..]| && t.trades[|s.trades|].exitTime == probes[1..][k].closeTime;
          assert probes[1..][k] == probes[k + 1];
        }
      } else {
        StopExitCloses(cfg, s, hit.value, probes[0].closeTime);
        assert probes[0].closeTime == RunProbes(cfg, s, probes).value.trades[|s.trades|].exitTime;
      }
    }
  }

  lemma StopExitCloses(cfg: Config, s: State, hit: (real, ExitReason), now: Time)
    requires Sound(cfg, s) && s.position.Some? && ExitAt(cfg, s, hit, now).Ok?
    ensures var t := ExitAt(cfg, s, hit, now).value;
            && Sound(cfg, t) && ClosedWhole(s, t)
            && t.trades[|s.trades|].exitTime == now && t.trades[|s.trades|].exitReason == hit.1
            && t.peakEquity == s.peakEquity && t.curve == s.curve && t.lockSince == s.lockSince
            && t.consecutiveLosses == if t.trades[|s.trades|].realizedPnl < 0.0 then s.consecutiveLosses + 1 else 0
  {
  }

  // ----- signals -----

  /** The gate's part of the long-only rule: it never approves a sell from flat. */
  ghost predicate GateDeniesShorts(cfg: Config) {
    !AllowShort(cfg.exchange) ==>
      forall input: RiskInput :: input.action == SignalSell && !input.hasOpenPosition ==> cfg.gate(input).Deny?
  }

  /** What acting on one bar's signal can do: nothing, open or add in one direction without a
      trade, or close the whole holding at the bar's close. */
  predicate ActedTo(cfg: Config, s: State, now: Time, t: State) {
    && Sound(cfg, t)
    && t.peakEquity == s.peakEquity && t.curve == s.curve && t.lockSince == s.lockSince
    && (if t.trades == s.trades then
          && t.consecutiveLosses == s.consecutiveLosses
          && (s.position.Some? ==>
                && t.position.Some? && t.openedAt == s.openedAt && t.position.value.side == s.position.value.side
                && t.position.value.quantity >= s.position.value.quantity && t.stopPrice == s.stopPrice)
          && (s.position.None? && t.position.Some? ==> t.openedAt == Some(now))
        else
          && ClosedWhole(s, t) && t.trades[|s.trades|].exitTime == now && t.trades[|s.trades|].exitReason == BySignal
          && t.consecutiveLosses == (if t.trades[|s.trades|].realizedPnl < 0.0 then s.consecutiveLosses + 1 else 0))
  }

  lemma LevelsPlaced(cfg: Config, before: Option<Position>, s: State, action: SignalAction, price: real, distance: real)
    requires action != Hold && s.position.Some? && s.position.value.side == OpeningSide(OrderSideOf(action))
    requires before.Some? ==> before.value.side == s.position.value.side
    requires before.None? ==> s.stopPrice.None? && s.takeProfitPrice.None? && s.trailDistance.None? && s.highestSinceEntry.None?
    requires before.Some? ==> LevelsMatchPolicy(cfg, s)
    ensures LevelsMatchPolicy(cfg, PlaceLevels(cfg, before, s, action, price, distance))
  {
  }

  lemma AddingKeepsQuantity(s: State, fill: Fill, side: OrderSide, now: Time, allowShort: bool)
    requires s.position.Some? && !Closes(s.position, side) && fill.quantity > 0.0 && s.position.value.quantity > 0.0
    ensures var r := ApplyAndRecord(s, fill, side, now, allowShort, BySignal);
            r.Ok? && r.value.position.Some? && r.value.position.value.quantity == s.position.value.quantity + fill.quantity
  {
  }

  lemma EntryActs(cfg: Config, s: State, candle: Candle, history: seq<Candle>, action: SignalAction)
    requires Sound(cfg, s) && action != Hold && !Opposes(action, s.position)
    requires Enter(cfg, s, candle, history, action).Ok?
    ensures ActedTo(cfg, s, candle.closeTime, Enter(cfg, s, candle, history, action).value)
  {
    var verdict := cfg.gate(RiskInputOf(cfg, s, candle, action, cfg.stopDistance(history)));
    if verdict.Approve? {
      var side := OrderSideOf(action);
      var fill := SimulateFill(cfg.exchange, side, candle.close, verdict.quantity, cfg.expectedSlippage).value;
      var r := ApplyAndRecord(s, fill, side, candle.closeTime, AllowShort(cfg.exchange), BySignal);
      hide RiskInputOf, SimulateFill;
      OpeningFill(cfg, s, fill, side, candle.closeTime);
      if s.position.Some? {
        AddingKeepsQuantity(s, fill, side, candle.closeTime, AllowShort(cfg.exchange));
      }
      hide ApplyAndRecord;
      LevelsPlaced(cfg, s.position, r.value.(lastOrderTime := Some(candle.closeTime)), action, fill.price,
            cfg.stopDistance(history));
    }
  }

  lemma SignalActs(cfg: Config, s: State, candle: Candle, history: seq<Candle>)
    requires Sound(cfg, s) && ActOnSignal(cfg, s, candle, history).Ok?
    ensures ActedTo(cfg, s, candle.closeTime, ActOnSignal(cfg, s, candle, history).value)
  {
    var action := cfg.signal(history);
    if Opposes(action, s.position) {
      var fill := SimulateFill(cfg.exchange, OrderSideOf(action), candle.close, s.position.value.quantity,
            cfg.expectedSlippage).value;
      ClosingFill(cfg, s, fill, candle.closeTime, BySignal);
    } else if action != Hold {
      EntryActs(cfg, s, candle, history, action);
    }
  }
}
