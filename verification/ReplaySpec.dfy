/** What one replay computes, as functions over the replay state
    (app/trading/application/backtest_replay.py). The class in BacktestReplay.dfy changes the
    same state step by step and is proved equal to these functions. */
module ReplaySpec {
  import opened Wrappers
  import opened BacktestFill

  /** Times are seconds since the Unix epoch, in UTC. */
  type Time = int

  type Quantity = q: real | q > 0.0 witness 1.0

  datatype Candle = Candle(openTime: Time, closeTime: Time, open: real, high: real, low: real, close: real)

  /** What a stop check reads: a decision candle itself, or a finer bar inside it. */
  datatype Bar = Bar(closeTime: Time, open: real, high: real, low: real)

  datatype SignalAction = SignalBuy | SignalSell | Hold
  datatype ExitReason = BySignal | ByStop | ByTarget
  datatype ExitPolicy = SignalOnly | StopLoss | StopAndTarget | TrailingStop

  datatype TradeRecord = TradeRecord(
    sequenceNo: int, side: OrderSide, entryTime: Time, exitTime: Time, entryPrice: real,
    exitPrice: real, quantity: real, fees: real, realizedPnl: real, exitReason: ExitReason)

  /** The inputs of the risk gate that change from bar to bar. */
  datatype RiskInput = RiskInput(
    action: SignalAction, now: Time, marketPrice: real, stopDistance: real, expectedSlippage: real,
    feeBufferPerUnit: real, equity: real, availableCash: real, existingOpenRisk: real,
    hasOpenPosition: bool, existingQuantity: real, dayStartEquity: real, weekStartEquity: real,
    peakEquity: real, consecutiveLosses: int, minutesSinceLastOrder: Option<real>)

  datatype GateResult = Deny | Approve(quantity: Quantity)

  /** The parameters of one run. `signal`, `stopDistance` and `gate` are arbitrary pure functions;
      `monitor` maps a decision bar's open time to the finer bars inside it. */
  datatype Config = Config(
    exchange: Exchange, initialEquity: real, expectedSlippage: real, warmup: int,
    policy: ExitPolicy, stopSlippage: real, monitor: map<Time, seq<Bar>>,
    lockReleaseDays: Option<int>, streakLimit: int, drawdownLimit: real, rewardRisk: real,
    window: nat, feeRate: real,
    signal: seq<Candle> -> SignalAction, stopDistance: seq<Candle> -> real, gate: RiskInput -> GateResult)

  /** The replay state. `fills` is a history variable: every fill applied so far. */
  datatype State = State(
    cash: real, position: Option<Position>, openedAt: Option<Time>,
    dayStartDate: Option<int>, dayStartEquity: real, weekStartDate: Option<int>, weekStartEquity: real,
    peakEquity: real, consecutiveLosses: int, lastOrderTime: Option<Time>,
    stopPrice: Option<real>, takeProfitPrice: Option<real>,
    trailDistance: Option<real>, highestSinceEntry: Option<real>,
    openEntryFees: real, trades: seq<TradeRecord>, curve: seq<(Time, real)>,
    nextSequenceNo: int, lockSince: Option<Time>, fills: seq<Fill>)

  datatype ReplayResult = ReplayResult(
    trades: seq<TradeRecord>, endingEquity: real, endingPosition: Option<Position>, curve: seq<(Time, real)>)

  const SECONDS_PER_DAY: int := 86400

  function Initial(initialEquity: real): State {
    State(initialEquity, None, None, None, 0.0, None, 0.0, 0.0, 0, None, None, None, None, None,
          0.0, [], [], 1, None, [])
  }

  function AllowShort(exchange: Exchange): bool { exchange == Oanda }

  function OrderSideOf(action: SignalAction): OrderSide
    requires action != Hold
  {
    if action == SignalBuy then Buy else Sell
  }

  // ----- applying one fill -----

  predicate Closes(position: Option<Position>, side: OrderSide) {
    position.Some? && side == ClosingSide(position.value.side)
  }

  function ClosingQuantity(position: Option<Position>, fill: Fill, side: OrderSide): real {
    if Closes(position, side) then MinReal(fill.quantity, position.value.quantity) else 0.0
  }

  /** The part of the fill's own fee that belongs to the quantity it closes. */
  function ClosingFee(position: Option<Position>, fill: Fill, side: OrderSide): real {
    if fill.quantity != 0.0 then fill.feeAmount * ClosingQuantity(position, fill, side) / fill.quantity
    else 0.0
  }

  /** The part of the entry fees paid so far that the closed quantity takes with it. */
  function EntryFeeShare(s: State, fill: Fill, side: OrderSide): real
    requires Closes(s.position, side) ==> s.position.value.quantity != 0.0
  {
    if Closes(s.position, side)
    then s.openEntryFees * ClosingQuantity(s.position, fill, side) / s.position.value.quantity
    else 0.0
  }

  function RecordTrade(s: State, fill: Fill, side: OrderSide, now: Time, realized: real, reason: ExitReason): State
    requires Closes(s.position, side) && s.openedAt.Some? && s.position.value.quantity != 0.0
  {
    var share := EntryFeeShare(s, fill, side);
    var trade := TradeRecord(
                   s.nextSequenceNo, side, s.openedAt.value, now, s.position.value.averageEntryPrice, fill.price,
                   ClosingQuantity(s.position, fill, side), ClosingFee(s.position, fill, side) + share,
                   realized, reason);
    s.(openEntryFees := s.openEntryFees - share,
       trades := s.trades + [trade],
       nextSequenceNo := s.nextSequenceNo + 1,
       consecutiveLosses := if realized < 0.0 then s.consecutiveLosses + 1 else 0)
  }

  /** Installs the position left by a fill; a flat account forgets its levels and entry fees. */
  function InstallPosition(s: State, after: Option<Position>, now: Time): State {
    var openedFromFlat := s.position.None? && after.Some?;
    var flipped := after.Some? && s.position.Some? && after.value.side != s.position.value.side;
    var s1 :=
      if openedFromFlat || flipped then s.(openedAt := Some(now))
      else if after.None? then
        s.(openedAt := None, stopPrice := None, takeProfitPrice := None, trailDistance := None,
           highestSinceEntry := None, openEntryFees := 0.0)
      else s;
    s1.(position := after)
  }

  /** Moves the cash of a fill, records the trade it closes (if any), and keeps the rest of its fee open. */
  function Book(s: State, fill: Fill, side: OrderSide, now: Time, realized: real, reason: ExitReason): State
    requires Closes(s.position, side) ==> s.openedAt.Some? && s.position.value.quantity != 0.0
  {
    var s1 := s.(cash := s.cash + (SignedNotional(fill, side) - fill.feeAmount), fills := s.fills + [fill]);
    var s2 := if Closes(s.position, side) then RecordTrade(s1, fill, side, now, realized, reason) else s1;
    s2.(openEntryFees := s2.openEntryFees + (fill.feeAmount - ClosingFee(s.position, fill, side)))
  }

  function ApplyAndRecord(s: State, fill: Fill, side: OrderSide, now: Time, allowShort: bool, reason: ExitReason)
    : Result<State, Error>
  {
    var outcome :- ApplyFillToPosition(s.position, fill, side, allowShort);
    if Closes(s.position, side) && s.openedAt.None? then
      Err(AssertionFailed)
    else if Closes(s.position, side) && s.position.value.quantity == 0.0 then
      Err(DivisionByZero)
    else
      Ok(InstallPosition(Book(s, fill, side, now, outcome.realizedPnl, reason), outcome.position, now))
  }

  // ----- protective exits -----

  /** Where, if anywhere, a bar hit the stop or the target; a gap fills at the open, and a bar that
      covers both levels is taken to have hit the stop. */
  function ProtectiveExit(bar: Bar, side: PositionSide, stop: real, target: Option<real>)
    : Option<(real, ExitReason)>
  {
    if side == Long then
      if bar.open <= stop then Some((bar.open, ByStop))
      else if bar.low <= stop then Some((stop, ByStop))
      else if target.None? then None
      else if bar.open >= target.value then Some((bar.open, ByTarget))
      else if bar.high >= target.value then Some((target.value, ByTarget))
      else None
    else
      if bar.open >= stop then Some((bar.open, ByStop))
      else if bar.high >= stop then Some((stop, ByStop))
      else if target.None? then None
      else if bar.open <= target.value then Some((bar.open, ByTarget))
      else if bar.low <= target.value then Some((target.value, ByTarget))
      else None
  }

  function SlippedStopPrice(price: real, side: PositionSide, stopSlippage: real): real {
    if side == Long then price * (1.0 - stopSlippage) else price * (1.0 + stopSlippage)
  }

  function RaiseTrailingStop(s: State, bar: Bar): State {
    if s.trailDistance.None? || s.highestSinceEntry.None? || s.stopPrice.None? || s.position.None?
       || s.position.value.side != Long
    then s
    else
      var highest := MaxReal(s.highestSinceEntry.value, bar.high);
      s.(highestSinceEntry := Some(highest),
         stopPrice := Some(MaxReal(s.stopPrice.value, highest - s.trailDistance.value)))
  }

  /** Closes the held position at a stop or target price. */
  function ExitAt(cfg: Config, s: State, hit: (real, ExitReason), now: Time): Result<State, Error>
    requires s.position.Some?
  {
    var held := s.position.value;
    var side := ClosingSide(held.side);
    var price := if hit.1 == ByStop then SlippedStopPrice(hit.0, held.side, cfg.stopSlippage) else hit.0;
    var fill :- SimulateFill(cfg.exchange, side, price, held.quantity, cfg.expectedSlippage);
    ApplyAndRecord(s, fill, side, now, AllowShort(cfg.exchange), hit.1)
  }

  predicate Unprotected(cfg: Config, s: State) {
    cfg.policy == SignalOnly || s.position.None? || s.stopPrice.None?
  }

  function RunProbes(cfg: Config, s: State, probes: seq<Bar>): Result<State, Error>
    decreases |probes|
  {
    if probes == [] || Unprotected(cfg, s) then Ok(s)
    else
      var hit := ProtectiveExit(probes[0], s.position.value.side, s.stopPrice.value, s.takeProfitPrice);
      if hit.None? then RunProbes(cfg, RaiseTrailingStop(s, probes[0]), probes[1..])
      else ExitAt(cfg, s, hit.value, probes[0].closeTime)
  }

  function AsBar(candle: Candle): Bar { Bar(candle.closeTime, candle.open, candle.high, candle.low) }

  /** The finer bars of a candle, or the candle itself when there are none. */
  function Probes(cfg: Config, candle: Candle): seq<Bar> {
    if candle.openTime in cfg.monitor && cfg.monitor[candle.openTime] != []
    then cfg.monitor[candle.openTime]
    else [AsBar(candle)]
  }

  // ----- marking to market -----

  function Equity(s: State, price: real): real { s.cash + MarketValue(s.position, price) }

  function ReleaseExpiredLock(cfg: Config, s: State, now: Time, equity: real, releaseAfter: int): State {
    var streakLocked := s.consecutiveLosses > cfg.streakLimit;
    var drawdownLocked := s.peakEquity > 0.0 && (s.peakEquity - equity) / s.peakEquity > cfg.drawdownLimit;
    if !(streakLocked || drawdownLocked) then s.(lockSince := None)
    else if s.lockSince.None? then s.(lockSince := Some(now))
    else if now - s.lockSince.value >= releaseAfter then
      s.(consecutiveLosses := 0, peakEquity := equity, lockSince := None)
    else s
  }

  function DayOf(t: Time): int { t / SECONDS_PER_DAY }

  /** Monday of the week of day `d`; day 0 was a Thursday. */
  function WeekStart(d: int): int { d - (d + 3) % 7 }

  function NoteWindows(s: State, now: Time, equity: real): State {
    var today := DayOf(now);
    var s1 := if s.dayStartDate != Some(today) then s.(dayStartDate := Some(today), dayStartEquity := equity) else s;
    var monday := WeekStart(today);
    if s1.weekStartDate != Some(monday) then s1.(weekStartDate := Some(monday), weekStartEquity := equity) else s1
  }

  function Mark(cfg: Config, s: State, candle: Candle): State {
    var equity := Equity(s, candle.close);
    var s1 := s.(curve := s.curve + [(candle.closeTime, equity)], peakEquity := MaxReal(s.peakEquity, equity));
    var s2 := if cfg.lockReleaseDays.None? then s1
              else ReleaseExpiredLock(cfg, s1, candle.closeTime, equity, cfg.lockReleaseDays.value * SECONDS_PER_DAY);
    NoteWindows(s2, candle.closeTime, equity)
  }

  // ----- acting on the signal -----

  predicate Opposes(action: SignalAction, position: Option<Position>) {
    position.Some?
    && ((action == SignalBuy && position.value.side == Short) || (action == SignalSell && position.value.side == Long))
  }

  function RiskInputOf(cfg: Config, s: State, candle: Candle, action: SignalAction, stopDistance: real): RiskInput {
    RiskInput(
      action, candle.closeTime, candle.close, stopDistance, cfg.expectedSlippage,
      if cfg.exchange == Oanda then 0.0 else candle.close * cfg.feeRate,
      Equity(s, candle.close), s.cash,
      MaxReal(0.0, -UnrealizedPnl(s.position, candle.close)),
      s.position.Some?, if s.position.Some? then s.position.value.quantity else 0.0,
      s.dayStartEquity, s.weekStartEquity, s.peakEquity, s.consecutiveLosses,
      if s.lastOrderTime.Some? then Some((candle.closeTime - s.lastOrderTime.value) as real / 60.0) else None)
  }

  /** The price `multiple` stop distances from the fill, on the favourable side if positive. */
  function LevelAt(fillPrice: real, action: SignalAction, distance: real, multiple: real): real {
    var direction := if action == SignalBuy then 1.0 else -1.0;
    fillPrice + direction * distance * multiple
  }

  /** Sets the stop (and target or trail) of a position that has just been opened. */
  function PlaceLevels(cfg: Config, before: Option<Position>, s: State, action: SignalAction, fillPrice: real,
                       stopDistance: real): State
  {
    var isNew := s.position.Some? && (before.None? || before.value.side != s.position.value.side);
    if cfg.policy == SignalOnly || !isNew then s
    else
      var s1 := s.(stopPrice := Some(LevelAt(fillPrice, action, stopDistance, -1.0)));
      if cfg.policy == TrailingStop then
        s1.(trailDistance := Some(stopDistance), highestSinceEntry := Some(fillPrice))
      else if cfg.policy == StopAndTarget then
        s1.(takeProfitPrice := Some(LevelAt(fillPrice, action, stopDistance, cfg.rewardRisk)))
      else s1
  }

  function Enter(cfg: Config, s: State, candle: Candle, history: seq<Candle>, action: SignalAction)
    : Result<State, Error>
    requires action != Hold
  {
    var stopDistance := cfg.stopDistance(history);
    if cfg.exchange.Other? then Err(UnsupportedExchange)
    else
      var verdict := cfg.gate(RiskInputOf(cfg, s, candle, action, stopDistance));
      if verdict.Deny? then Ok(s)
      else
        var side := OrderSideOf(action);
        var fill :- SimulateFill(cfg.exchange, side, candle.close, verdict.quantity, cfg.expectedSlippage);
        var s1 :- ApplyAndRecord(s, fill, side, candle.closeTime, AllowShort(cfg.exchange), BySignal);
        var s2 := s1.(lastOrderTime := Some(candle.closeTime));
        Ok(PlaceLevels(cfg, s.position, s2, action, fill.price, stopDistance))
  }

  /** An opposing signal only closes what is held; it never opens the other side in the same bar. */
  function ActOnSignal(cfg: Config, s: State, candle: Candle, history: seq<Candle>): Result<State, Error> {
    var action := cfg.signal(history);
    if Opposes(action, s.position) then
      var side := OrderSideOf(action);
      var fill :- SimulateFill(cfg.exchange, side, candle.close, s.position.value.quantity, cfg.expectedSlippage);
      ApplyAndRecord(s, fill, side, candle.closeTime, AllowShort(cfg.exchange), BySignal)
    else if action == Hold then Ok(s)
    else Enter(cfg, s, candle, history, action)
  }

  // ----- the run -----

  /** The bounded window of candles ending at bar `i`. */
  function History(cfg: Config, candles: seq<Candle>, i: nat): seq<Candle>
    requires i < |candles|
  {
    candles[if i + 1 <= cfg.window then 0 else i + 1 - cfg.window..i + 1]
  }

  function EvaluateBar(cfg: Config, s: State, candles: seq<Candle>, i: nat): Result<State, Error>
    requires i < |candles|
  {
    var s1 :- RunProbes(cfg, s, Probes(cfg, candles[i]));
    ActOnSignal(cfg, Mark(cfg, s1, candles[i]), candles[i], History(cfg, candles, i))
  }

  /** The state once bars `warmup` to `n - 1` have been evaluated. */
  function StateAfter(cfg: Config, candles: seq<Candle>, n: nat): Result<State, Error>
    requires 0 <= cfg.warmup <= n <= |candles|
  {
    if n == cfg.warmup then Ok(Initial(cfg.initialEquity))
    else
      var s :- StateAfter(cfg, candles, n - 1);
      EvaluateBar(cfg, s, candles, n - 1)
  }

  /** A state follows from the one before it. */
  lemma LastBar(cfg: Config, candles: seq<Candle>, n: nat)
    requires 0 <= cfg.warmup < n <= |candles| && StateAfter(cfg, candles, n).Ok?
    ensures StateAfter(cfg, candles, n - 1).Ok?
    ensures EvaluateBar(cfg, StateAfter(cfg, candles, n - 1).value, candles, n - 1) == StateAfter(cfg, candles, n)
  {
    hide EvaluateBar;
  }

  lemma FirstState(cfg: Config, candles: seq<Candle>)
    requires 0 <= cfg.warmup <= |candles|
    ensures StateAfter(cfg, candles, cfg.warmup) == Ok(Initial(cfg.initialEquity))
  {
  }

  function ResultOf(s: State, lastClose: real): ReplayResult {
    ReplayResult(s.trades, Equity(s, lastClose), s.position, s.curve)
  }

  function Replay(cfg: Config, candles: seq<Candle>): Result<ReplayResult, Error> {
    if cfg.warmup < 0 then Err(NegativeWarmup)
    else if cfg.stopSlippage < 0.0 then Err(NegativeStopSlippage)
    else if |candles| <= cfg.warmup then Ok(ReplayResult([], cfg.initialEquity, None, []))
    else
      var s :- StateAfter(cfg, candles, |candles|);
      Ok(ResultOf(s, candles[|candles| - 1].close))
  }
}
