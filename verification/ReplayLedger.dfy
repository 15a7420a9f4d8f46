/** The ledger of a replay: cash, cost, profit and fees always add up. */
module ReplayLedger {
  import opened Wrappers
  import opened BacktestFill
  import opened ReplaySpec

  /** Fee-inclusive profit of a list of trades. */
  function NetPnl(trades: seq<TradeRecord>): real {
    if trades == [] then 0.0
    else NetPnl(trades[..|trades| - 1]) + trades[|trades| - 1].realizedPnl - trades[|trades| - 1].fees
  }

  function TradeFees(trades: seq<TradeRecord>): real {
    if trades == [] then 0.0 else TradeFees(trades[..|trades| - 1]) + trades[|trades| - 1].fees
  }

  function FillFees(fills: seq<Fill>): real {
    if fills == [] then 0.0 else FillFees(fills[..|fills| - 1]) + fills[|fills| - 1].feeAmount
  }

  /** The money put in, recomputed from what is there now: cash plus the entry cost of the holding
      plus unattributed entry fees minus the profit of the recorded trades. */
  function Capital(s: State): real {
    s.cash + EntryCost(s.position) + s.openEntryFees - NetPnl(s.trades)
  }

  /** Fees attributed to trades or still waiting for one, minus the fees actually paid. */
  function FeeImbalance(s: State): real {
    TradeFees(s.trades) + s.openEntryFees - FillFees(s.fills)
  }

  predicate Balanced(cfg: Config, s: State) {
    Capital(s) == cfg.initialEquity && FeeImbalance(s) == 0.0
  }

  lemma AppendedFill(fills: seq<Fill>, f: Fill)
    ensures FillFees(fills + [f]) == FillFees(fills) + f.feeAmount
  {
  }

  /** When a fill leaves the account flat, the entry fees it resets to zero were already fully
      charged to the closing trade. */
  lemma FlatLeavesNoFees(s: State, fill: Fill, side: OrderSide, allowShort: bool)
    requires ApplyFillToPosition(s.position, fill, side, allowShort).Ok?
    requires ApplyFillToPosition(s.position, fill, side, allowShort).value.position.None?
    requires Closes(s.position, side) ==> s.position.value.quantity != 0.0
    ensures Closes(s.position, side)
    ensures EntryFeeShare(s, fill, side) == s.openEntryFees
    ensures ClosingFee(s.position, fill, side) == fill.feeAmount
  {
  }

  /** A fill that closes nothing keeps its whole fee open and realizes nothing. */
  lemma OpeningFillRealizesNothing(position: Option<Position>, fill: Fill, side: OrderSide, allowShort: bool)
    requires !Closes(position, side)
    requires ApplyFillToPosition(position, fill, side, allowShort).Ok?
    ensures ClosingFee(position, fill, side) == 0.0
    ensures ApplyFillToPosition(position, fill, side, allowShort).value.realizedPnl == 0.0
    ensures ApplyFillToPosition(position, fill, side, allowShort).value.position.Some?
  {
  }

  /** Booking a fill moves its profit into the trades and its fee into trades or open fees. */
  lemma BookedFillMovesItsFee(s: State, fill: Fill, side: OrderSide, now: Time, realized: real, reason: ExitReason)
    requires Closes(s.position, side) ==> s.openedAt.Some? && s.position.value.quantity != 0.0
    requires !Closes(s.position, side) ==> realized == 0.0
    ensures var t := Book(s, fill, side, now, realized, reason);
            && t.cash == s.cash + SignedNotional(fill, side) - fill.feeAmount
            && t.position == s.position && t.curve == s.curve
            && s.trades <= t.trades && t.fills == s.fills + [fill]
            && t.openEntryFees - NetPnl(t.trades) == s.openEntryFees - NetPnl(s.trades) - realized + fill.feeAmount
            && t.openEntryFees + TradeFees(t.trades) == s.openEntryFees + TradeFees(s.trades) + fill.feeAmount
            && t.openEntryFees == s.openEntryFees - EntryFeeShare(s, fill,
                  side) + (fill.feeAmount - ClosingFee(s.position, fill, side))
  {
  }

  /** Conservation through one fill, whichever of the five branches it takes: open, increase,
      reduce, exactly close, or flip, for any price, quantity and fee. */
  lemma ApplyKeepsTheLedger(s: State, fill: Fill, side: OrderSide, now: Time, allowShort: bool, reason: ExitReason)
    ensures var r := ApplyAndRecord(s, fill, side, now, allowShort, reason);
            r.Ok? ==> Capital(r.value) == Capital(s) && FeeImbalance(r.value) == FeeImbalance(s)
                      && s.trades <= r.value.trades && r.value.fills == s.fills + [fill]
                      && r.value.curve == s.curve
  {
    var r := ApplyAndRecord(s, fill, side, now, allowShort, reason);
    if r.Ok? {
      FillConservesValue(s.position, fill, side, allowShort);
      AppendedFill(s.fills, fill);
      if !Closes(s.position, side) {
        OpeningFillRealizesNothing(s.position, fill, side, allowShort);
      }
      hide ClosingFee, EntryFeeShare, ApplyFillToPosition, SignedNotional, EntryCost, NetPnl, TradeFees, FillFees, Book;
      var outcome := ApplyFillToPosition(s.position, fill, side, allowShort).value;
      BookedFillMovesItsFee(s, fill, side, now, outcome.realizedPnl, reason);
      if outcome.position.None? {
        FlatLeavesNoFees(s, fill, side, allowShort);
      }
    }
  }

  /** Moving stops, marking and risk bookkeeping touch nothing the ledger counts. */
  predicate SameBooks(s: State, t: State) {
    t.cash == s.cash && t.position == s.position && t.openEntryFees == s.openEntryFees
    && t.trades == s.trades && t.fills == s.fills
  }

  lemma ProbesKeepTheLedger(cfg: Config, s: State, probes: seq<Bar>)
    requires RunProbes(cfg, s, probes).Ok?
    ensures var t := RunProbes(cfg, s, probes).value;
            Capital(t) == Capital(s) && FeeImbalance(t) == FeeImbalance(s) && s.trades <= t.trades && t.curve == s.curve
    decreases |probes|
  {
    if probes != [] && !Unprotected(cfg, s) {
      var hit := ProtectiveExit(probes[0], s.position.value.side, s.stopPrice.value, s.takeProfitPrice);
      if hit.None? {
        var s1 := RaiseTrailingStop(s, probes[0]);
        assert SameBooks(s, s1);
        ProbesKeepTheLedger(cfg, s1, probes[1..]);
      } else {
        var held := s.position.value;
        var price := if hit.value.1 == ByStop then SlippedStopPrice(hit.value.0, held.side, cfg.stopSlippage) else hit.value.0;
        var fill := SimulateFill(cfg.exchange, ClosingSide(held.side), price, held.quantity, cfg.expectedSlippage).value;
        ApplyKeepsTheLedger(s, fill, ClosingSide(held.side), probes[0].closeTime, AllowShort(cfg.exchange), hit.value.1);
      }
    }
  }

  lemma SameBooksBalance(s: State, t: State)
    requires SameBooks(s, t)
    ensures Capital(t) == Capital(s) && FeeImbalance(t) == FeeImbalance(s)
  {
  }

  lemma SignalKeepsTheLedger(cfg: Config, s: State, candle: Candle, history: seq<Candle>)
    requires ActOnSignal(cfg, s, candle, history).Ok?
    ensures var t := ActOnSignal(cfg, s, candle, history).value;
            Capital(t) == Capital(s) && FeeImbalance(t) == FeeImbalance(s) && s.trades <= t.trades && t.curve == s.curve
  {
    hide Capital, FeeImbalance, ApplyAndRecord, SimulateFill, RiskInputOf;
    var action := cfg.signal(history);
    var allowShort := AllowShort(cfg.exchange);
    if Opposes(action, s.position) {
      var fill := SimulateFill(cfg.exchange, OrderSideOf(action), candle.close, s.position.value.quantity,
            cfg.expectedSlippage).value;
      ApplyKeepsTheLedger(s, fill, OrderSideOf(action), candle.closeTime, allowShort, BySignal);
    } else if action != Hold {
      var verdict := cfg.gate(RiskInputOf(cfg, s, candle, action, cfg.stopDistance(history)));
      if verdict.Approve? {
        var fill := SimulateFill(cfg.exchange, OrderSideOf(action), candle.close, verdict.quantity, cfg.expectedSlippage).value;
        ApplyKeepsTheLedger(s, fill, OrderSideOf(action), candle.closeTime, allowShort, BySignal);
        var s1 := ApplyAndRecord(s, fill, OrderSideOf(action), candle.closeTime, allowShort, BySignal).value;
        SameBooksBalance(s1, ActOnSignal(cfg, s, candle, history).value);
      }
    }
  }

  /** The state at the moment bar `i` is marked: after its stop checks, before its signal. */
  function AtMark(cfg: Config, candles: seq<Candle>, i: nat): Result<State, Error>
    requires 0 <= cfg.warmup <= i < |candles|
  {
    var s :- StateAfter(cfg, candles, i);
    RunProbes(cfg, s, Probes(cfg, candles[i]))
  }

  lemma MarkingIsNeutral(cfg: Config, s: State, candle: Candle)
    ensures SameBooks(s, Mark(cfg, s, candle))
    ensures Mark(cfg, s, candle).curve == s.curve + [(candle.closeTime, Equity(s, candle.close))]
  {
  }

  /** One bar: both halves keep the ledger, and the curve gains exactly the marked equity. */
  lemma BarKeepsTheLedger(cfg: Config, candles: seq<Candle>, i: nat)
    requires 0 <= cfg.warmup <= i < |candles|
    requires StateAfter(cfg, candles, i + 1).Ok?
    ensures StateAfter(cfg, candles, i).Ok? && AtMark(cfg, candles, i).Ok?
    ensures var (s, m, t) := (StateAfter(cfg, candles, i).value, AtMark(cfg, candles, i).value, StateAfter(cfg,
          candles, i + 1).value);
            && Capital(s) == Capital(m) == Capital(t) && FeeImbalance(s) == FeeImbalance(m) == FeeImbalance(t)
            && s.trades <= m.trades <= t.trades
            && t.curve == s.curve + [(candles[i].closeTime, Equity(m, candles[i].close))]
  {
    var s := StateAfter(cfg, candles, i).value;
    ProbesKeepTheLedger(cfg, s, Probes(cfg, candles[i]));
    var m := AtMark(cfg, candles, i).value;
    MarkingIsNeutral(cfg, m, candles[i]);
    hide Mark, RunProbes, ActOnSignal, Probes, History, Equity, EntryCost;
    var marked := Mark(cfg, m, candles[i]);
    SignalKeepsTheLedger(cfg, marked, candles[i], History(cfg, candles, i));
  }

  /** At every bar of every replay the money in equals the initial equity and no fee is lost. */
  lemma {:induction false} ReplayIsBalanced(cfg: Config, candles: seq<Candle>, n: nat)
    requires 0 <= cfg.warmup <= n <= |candles|
    requires StateAfter(cfg, candles, n).Ok?
    ensures Balanced(cfg, StateAfter(cfg, candles, n).value)
    ensures |StateAfter(cfg, candles, n).value.curve| == n - cfg.warmup
  {
    hide EvaluateBar, RunProbes, Probes;
    if n > cfg.warmup {
      BarKeepsTheLedger(cfg, candles, n - 1);
      ReplayIsBalanced(cfg, candles, n - 1);
    }
  }

  /** What is recorded stays recorded: an earlier state's trades and curve are prefixes of a later one's. */
  lemma {:induction false} RecordsOnlyGrow(cfg: Config, candles: seq<Candle>, i: nat, n: nat)
    requires 0 <= cfg.warmup <= i <= n <= |candles|
    requires StateAfter(cfg, candles, n).Ok?
    ensures StateAfter(cfg, candles, i).Ok?
    ensures StateAfter(cfg, candles, i).value.trades <= StateAfter(cfg, candles, n).value.trades
    ensures StateAfter(cfg, candles, i).value.curve <= StateAfter(cfg, candles, n).value.curve
    decreases n - i
  {
    hide EvaluateBar, RunProbes, Probes;
    if i < n {
      BarKeepsTheLedger(cfg, candles, n - 1);
      RecordsOnlyGrow(cfg, candles, i, n - 1);
    }
  }

  /** Every point of the equity curve is the initial equity, plus the fee-inclusive profit of the
      trades closed by then, minus the entry fees of the open position, plus its unrealized profit. */
  lemma EveryCurvePointIsExplained(cfg: Config, candles: seq<Candle>, n: nat, i: nat)
    requires 0 <= cfg.warmup <= i < n <= |candles|
    requires StateAfter(cfg, candles, n).Ok?
    ensures StateAfter(cfg, candles, i).Ok? && AtMark(cfg, candles, i).Ok?
    ensures var (m, s) := (AtMark(cfg, candles, i).value, StateAfter(cfg, candles, n).value);
            && i - cfg.warmup < |s.curve|
            && m.trades <= s.trades
            && s.curve[i - cfg.warmup] ==
               (candles[i].closeTime,
                cfg.initialEquity + NetPnl(m.trades) - m.openEntryFees + UnrealizedPnl(m.position, candles[i].close))
  {
    hide EvaluateBar, RunProbes, Probes;
    RecordsOnlyGrow(cfg, candles, i + 1, n);
    BarKeepsTheLedger(cfg, candles, i);
    ReplayIsBalanced(cfg, candles, i + 1);
    MarkIsCostPlusUnrealized(AtMark(cfg, candles, i).value.position, candles[i].close);
  }

  /** The result of a replay: ending equity is fully explained, and paid fees are all accounted for. */
  lemma EndingEquityIsExplained(cfg: Config, candles: seq<Candle>)
    requires 0 <= cfg.warmup < |candles| && cfg.stopSlippage >= 0.0
    requires Replay(cfg, candles).Ok?
    ensures StateAfter(cfg, candles, |candles|).Ok?
    ensures var (r, s) := (Replay(cfg, candles).value, StateAfter(cfg, candles, |candles|).value);
            && r.endingEquity == cfg.initialEquity + NetPnl(r.trades) - s.openEntryFees
                                 + UnrealizedPnl(r.endingPosition, candles[|candles| - 1].close)
            && TradeFees(r.trades) + s.openEntryFees == FillFees(s.fills)
  {
    ReplayIsBalanced(cfg, candles, |candles|);
    MarkIsCostPlusUnrealized(StateAfter(cfg, candles, |candles|).value.position, candles[|candles| - 1].close);
  }
}
