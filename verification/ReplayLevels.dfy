/** What a bar's signal does to the account, exactly, and where the protective levels of a position
    stand from its opening to its end. */
module ReplayLevels {
  import opened Wrappers
  import opened BacktestFill
  import opened ReplaySpec
  import opened ReplayProperties
  import opened ReplayRuns
  import opened ReplayLedger

  // ----- one fill of a replay -----

  /** What a buy pays and a sell gets a unit, for an order at a price. */
  function Executed(cfg: Config, buys: bool, price: real): real {
    if buys then price + cfg.expectedSlippage else price - cfg.expectedSlippage
  }

  /** A thousandth of the value at the order's price, or nothing. */
  function FeeFor(cfg: Config, price: real, quantity: real): real {
    if cfg.exchange == Oanda then 0.0 else price * quantity / 1000.0
  }

  predicate Flat(s: State) { s.position.None? && s.openedAt.None? && s.openEntryFees == 0.0 && NoLevels(s) }

  predicate NoLevels(s: State) {
    s.stopPrice.None? && s.takeProfitPrice.None? && s.trailDistance.None? && s.highestSinceEntry.None?
  }

  predicate SameLevels(s: State, t: State) {
    && t.stopPrice == s.stopPrice && t.takeProfitPrice == s.takeProfitPrice
    && t.trailDistance == s.trailDistance && t.highestSinceEntry == s.highestSinceEntry
  }

  /** The whole holding is sold, or bought back, at `exit` for `fee`. */
  predicate ClosedFor(s: State, exit: real, fee: real, now: Time, reason: ExitReason, t: State)
    requires s.position.Some? && s.openedAt.Some?
  {
    var held := s.position.value;
    var long := held.side == Long;
    && Flat(t) && t.lastOrderTime == s.lastOrderTime && t.curve == s.curve
    && |t.trades| == |s.trades| + 1 && s.trades <= t.trades
    && var trade := t.trades[|s.trades|];
    && trade.sequenceNo == |t.trades| && trade.side == (if long then Sell else Buy) && trade.exitReason == reason
    && trade.entryTime == s.openedAt.value && trade.exitTime == now
    && trade.entryPrice == held.averageEntryPrice && trade.exitPrice == exit && trade.quantity == held.quantity
    && trade.fees == s.openEntryFees + fee
    && trade.realizedPnl ==
       (if long then (exit - held.averageEntryPrice) * held.quantity else (held.averageEntryPrice - exit) * held.quantity)
    && t.cash == s.cash + (if long then exit * held.quantity else -(exit * held.quantity)) - fee
  }

  /** The whole holding is closed by one order at a price. */
  predicate ClosedAt(cfg: Config, s: State, price: real, now: Time, reason: ExitReason, t: State)
    requires s.position.Some? && s.openedAt.Some?
  {
    var held := s.position.value;
    ClosedFor(s, Executed(cfg, held.side == Short, price), FeeFor(cfg, price, held.quantity), now, reason, t)
  }

  /** The position after a quantity is bought, or sold short, from flat or on top of the same side. */
  predicate Grown(before: Option<Position>, buys: bool, entry: real, quantity: real, after: Option<Position>) {
    && after.Some?
    && var p := after.value;
    && p.side == (if buys then Long else Short)
    && (if before.None? then p.quantity == quantity && p.averageEntryPrice == entry
        else
          && before.value.side == p.side && p.quantity == before.value.quantity + quantity
          && p.averageEntryPrice * p.quantity == before.value.averageEntryPrice * before.value.quantity + entry * quantity)
  }

  predicate AddedFor(s: State, entry: real, fee: real, buys: bool, quantity: real, now: Time, t: State) {
    && Grown(s.position, buys, entry, quantity, t.position)
    && t.openedAt == (if s.position.None? then Some(now) else s.openedAt)
    && t.trades == s.trades && t.curve == s.curve
    && t.cash == s.cash - (if buys then entry * quantity else -(entry * quantity)) - fee
    && t.openEntryFees == s.openEntryFees + fee
  }

  /** A quantity is ordered at a price, and that is the last order. */
  predicate AddedAt(cfg: Config, s: State, price: real, now: Time, buys: bool, quantity: real, t: State) {
    && AddedFor(s, Executed(cfg, buys, price), FeeFor(cfg, price, quantity), buys, quantity, now, t)
    && t.lastOrderTime == Some(now)
  }

  /** How far the target is, for a stop that far away. */
  function TargetDistance(distance: real, rewardRisk: real): real { distance * rewardRisk }

  /** The price a distance away from an entry, on the side where a long, or a short, wins. */
  function Winning(entry: real, distance: real, long: bool): real { if long then entry + distance else entry - distance }

  function Losing(entry: real, distance: real, long: bool): real { if long then entry - distance else entry + distance }

  /** The levels of a position opened at `entry`: the stop `distance` away on the losing side, the
      target `distance` times the reward/risk ratio away on the winning side. */
  predicate LevelsFrom(cfg: Config, entry: real, distance: real, long: bool, t: State) {
    && t.stopPrice == (if cfg.policy == SignalOnly then None else Some(Losing(entry, distance, long)))
    && t.takeProfitPrice ==
       (if cfg.policy != StopAndTarget then None else Some(Winning(entry, TargetDistance(distance, cfg.rewardRisk), long)))
    && t.trailDistance == (if cfg.policy == TrailingStop then Some(distance) else None)
    && t.highestSinceEntry == (if cfg.policy == TrailingStop then Some(entry) else None)
  }

  /** The order of a given side at a price. */
  predicate IsOrder(cfg: Config, buys: bool, price: real, fill: Fill) {
    SimulateFill(cfg.exchange, if buys then Buy else Sell, price, fill.quantity, cfg.expectedSlippage) == Ok(fill)
  }

  lemma OrderIsExact(cfg: Config, buys: bool, price: real, fill: Fill)
    requires IsOrder(cfg, buys, price, fill)
    ensures fill.price == Executed(cfg, buys, price) && fill.feeAmount == FeeFor(cfg, price, fill.quantity)
  {
  }

  lemma ClosingFeesAreWhole(s: State, fill: Fill)
    requires s.position.Some? && fill.quantity == s.position.value.quantity && fill.quantity > 0.0
    ensures var side := ClosingSide(s.position.value.side);
            ClosingFee(s.position, fill, side) == fill.feeAmount && EntryFeeShare(s, fill, side) == s.openEntryFees
  {
    Cancels(fill.feeAmount, fill.quantity);
    Cancels(s.openEntryFees, fill.quantity);
  }

  lemma ClosingBooks(cfg: Config, s: State, fill: Fill, now: Time, reason: ExitReason)
    requires Sound(cfg, s) && s.position.Some? && fill.quantity == s.position.value.quantity
    ensures var r := ApplyAndRecord(s, fill, ClosingSide(s.position.value.side), now, AllowShort(cfg.exchange), reason);
            r.Ok? && ClosedFor(s, fill.price, fill.feeAmount, now, reason, r.value)
  {
    ClosingFeesAreWhole(s, fill);
    WholeClose(s.position.value, fill, AllowShort(cfg.exchange));
    MirroredGain(fill.price, s.position.value.averageEntryPrice, s.position.value.quantity);
    hide ClosingFee, EntryFeeShare, ApplyFillToPosition, LevelsMatchPolicy;
  }

  lemma ClosingFillIsExact(cfg: Config, s: State, fill: Fill, price: real, now: Time, reason: ExitReason)
    requires Sound(cfg, s) && s.position.Some? && fill.quantity == s.position.value.quantity
    requires IsOrder(cfg, s.position.value.side == Short, price, fill)
    ensures var r := ApplyAndRecord(s, fill, ClosingSide(s.position.value.side), now, AllowShort(cfg.exchange), reason);
            r.Ok? && ClosedAt(cfg, s, price, now, reason, r.value)
  {
    OrderIsExact(cfg, s.position.value.side == Short, price, fill);
    ClosingBooks(cfg, s, fill, now, reason);
    hide ApplyAndRecord, ClosedFor, Executed, FeeFor, IsOrder;
  }

  lemma WholeClose(held: Position, fill: Fill, allowShort: bool)
    requires fill.quantity == held.quantity
    ensures var r := ApplyFillToPosition(Some(held), fill, ClosingSide(held.side), allowShort);
            && r.Ok? && r.value.position.None?
            && r.value.realizedPnl == (fill.price - held.averageEntryPrice) * held.quantity * Sign(held.side)
  {
    var closing := MinReal(fill.quantity, held.quantity);
    assert closing == held.quantity;
  }

  lemma MirroredGain(x: real, y: real, q: real)
    ensures (x - y) * q * Sign(Short) == (y - x) * q
    ensures (x - y) * q * Sign(Long) == (x - y) * q
  {
  }

  lemma Cancels(x: real, y: real)
    requires y != 0.0
    ensures x * y / y == x
  {
  }

  lemma AddingGrows(position: Option<Position>, fill: Fill, buys: bool, allowShort: bool)
    requires fill.quantity > 0.0 && (position.Some? ==> position.value.quantity > 0.0)
    requires !Closes(position, if buys then Buy else Sell)
    ensures var r := ApplyFillToPosition(position, fill, if buys then Buy else Sell, allowShort);
            r.Ok? ==> Grown(position, buys, fill.price, fill.quantity, r.value.position)
  {
  }

  lemma AddingBooks(cfg: Config, s: State, fill: Fill, now: Time, buys: bool)
    requires Sound(cfg, s) && fill.quantity > 0.0 && !Closes(s.position, if buys then Buy else Sell)
    ensures var r := ApplyAndRecord(s, fill, if buys then Buy else Sell, now, AllowShort(cfg.exchange), BySignal);
            r.Ok? ==> AddedFor(s, fill.price, fill.feeAmount, buys, fill.quantity, now, r.value) && SameLevels(s, r.value)
  {
    var side := if buys then Buy else Sell;
    AddingGrows(s.position, fill, buys, AllowShort(cfg.exchange));
    if ApplyFillToPosition(s.position, fill, side, AllowShort(cfg.exchange)).Ok? {
      OpeningFillRealizesNothing(s.position, fill, side, AllowShort(cfg.exchange));
    }
    hide ClosingFee, EntryFeeShare, ApplyFillToPosition, LevelsMatchPolicy;
  }

  lemma AddingFillIsExact(cfg: Config, s: State, fill: Fill, price: real, now: Time, buys: bool)
    requires Sound(cfg, s) && fill.quantity > 0.0 && !Closes(s.position, if buys then Buy else Sell)
    requires IsOrder(cfg, buys, price, fill)
    ensures var r := ApplyAndRecord(s, fill, if buys then Buy else Sell, now, AllowShort(cfg.exchange), BySignal);
            r.Ok? ==>
              && AddedAt(cfg, s, price, now, buys, fill.quantity, r.value.(lastOrderTime := Some(now)))
              && SameLevels(s, r.value)
  {
    OrderIsExact(cfg, buys, price, fill);
    AddingBooks(cfg, s, fill, now, buys);
    hide ApplyAndRecord, Grown, Executed, FeeFor, IsOrder;
  }

  // ----- one signal -----

  /** What a signal does: an opposing one closes everything at the close of the bar; a buy or sell that
      the gate approves opens or adds the approved quantity, and sets the levels of a new position;
      nothing else happens. */
  predicate FollowedSignal(cfg: Config, s: State, candle: Candle, history: seq<Candle>, t: State)
    requires s.position.Some? == s.openedAt.Some?
  {
    var action := cfg.signal(history);
    var buys := action == SignalBuy;
    if s.position.Some? && action == (if s.position.value.side == Long then SignalSell else SignalBuy) then
      ClosedAt(cfg, s, candle.close, candle.closeTime, BySignal, t)
    else if action == Hold then t == s
    else
      var distance := cfg.stopDistance(history);
      match cfg.gate(RiskInputOf(cfg, s, candle, action, distance))
      case Deny => t == s
      case Approve(quantity) =>
        && AddedAt(cfg, s, candle.close, candle.closeTime, buys, quantity, t)
        && (if s.position.Some? then SameLevels(s, t)
            else LevelsFrom(cfg, Executed(cfg, buys, candle.close), distance, buys, t))
  }

  lemma PlacedLevels(cfg: Config, before: Option<Position>, s: State, action: SignalAction, price: real, distance: real)
    requires action != Hold && s.position.Some? && s.position.value.side == OpeningSide(OrderSideOf(action))
    requires before.Some? ==> before.value.side == s.position.value.side
    requires before.None? ==> NoLevels(s)
    ensures var t := PlaceLevels(cfg, before, s, action, price, distance);
            && t == s.(stopPrice := t.stopPrice, takeProfitPrice := t.takeProfitPrice, trailDistance := t.trailDistance,
                       highestSinceEntry := t.highestSinceEntry)
            && (before.None? ==> LevelsFrom(cfg, price, distance, action == SignalBuy, t))
            && (before.Some? ==> t == s)
  {
    LevelSides(price, action, distance, cfg.rewardRisk);
    hide LevelAt, Winning, Losing, TargetDistance;
  }

  lemma LevelSides(price: real, action: SignalAction, distance: real, multiple: real)
    ensures LevelAt(price, action, distance, multiple) ==
            Winning(price, TargetDistance(distance, multiple), action == SignalBuy)
    ensures LevelAt(price, action, distance, -1.0) == Losing(price, distance, action == SignalBuy)
  {
  }

  lemma SoundIsFlat(cfg: Config, s: State)
    requires Sound(cfg, s)
    ensures s.position.None? ==> NoLevels(s)
  {
  }

  lemma EntryIsExact(cfg: Config, s: State, candle: Candle, history: seq<Candle>, action: SignalAction)
    requires Sound(cfg, s) && action == cfg.signal(history) && action != Hold && !Opposes(action, s.position)
    requires Enter(cfg, s, candle, history, action).Ok?
    ensures FollowedSignal(cfg, s, candle, history, Enter(cfg, s, candle, history, action).value)
  {
    SoundIsFlat(cfg, s);
    var distance := cfg.stopDistance(history);
    var verdict := cfg.gate(RiskInputOf(cfg, s, candle, action, distance));
    hide RiskInputOf;
    if verdict.Approve? {
      var side := OrderSideOf(action);
      var fill := SimulateFill(cfg.exchange, side, candle.close, verdict.quantity, cfg.expectedSlippage).value;
      assert fill.quantity == verdict.quantity && fill.price == Executed(cfg, action == SignalBuy, candle.close);
      AddingFillIsExact(cfg, s, fill, candle.close, candle.closeTime, action == SignalBuy);
      var r := ApplyAndRecord(s, fill, side, candle.closeTime, AllowShort(cfg.exchange), BySignal);
      hide ApplyAndRecord, Executed, FeeFor, SimulateFill, Sound, PlaceLevels;
      var ordered := r.value.(lastOrderTime := Some(candle.closeTime));
      assert s.position.None? ==> NoLevels(ordered);
      PlacedLevels(cfg, s.position, ordered, action, fill.price, distance);
    }
  }

  lemma SignalIsExact(cfg: Config, s: State, candle: Candle, history: seq<Candle>)
    requires Sound(cfg, s) && ActOnSignal(cfg, s, candle, history).Ok?
    ensures FollowedSignal(cfg, s, candle, history, ActOnSignal(cfg, s, candle, history).value)
  {
    var action := cfg.signal(history);
    if Opposes(action, s.position) {
      var held := s.position.value;
      var fill := SimulateFill(cfg.exchange, OrderSideOf(action), candle.close, held.quantity, cfg.expectedSlippage).value;
      assert OrderSideOf(action) == ClosingSide(held.side) && fill.quantity == held.quantity;
      ClosingFillIsExact(cfg, s, fill, candle.close, candle.closeTime, BySignal);
      hide ApplyAndRecord, ClosedAt, SimulateFill;
    } else if action != Hold {
      EntryIsExact(cfg, s, candle, history, action);
      hide Enter, AddedAt, LevelsFrom;
    }
  }

  // ----- one stop check -----

  /** Where an order goes that a stop or a target sends: the level hit, moved against the holder by the
      stop slippage if it was the stop. */
  function SentAt(cfg: Config, long: bool, level: real, reason: ExitReason): real {
    if reason != ByStop then level else if long then level - level * cfg.stopSlippage else level + level * cfg.stopSlippage
  }

  /** A hit level closes the whole holding at that price, with the slippage of every order on top. */
  lemma ExitIsExact(cfg: Config, s: State, hit: (real, ExitReason), now: Time)
    requires Sound(cfg, s) && s.position.Some? && ExitAt(cfg, s, hit, now).Ok?
    ensures ClosedAt(cfg, s, SentAt(cfg, s.position.value.side == Long, hit.0, hit.1), now, hit.1,
                     ExitAt(cfg, s, hit, now).value)
  {
    var held := s.position.value;
    var price := if hit.1 == ByStop then SlippedStopPrice(hit.0, held.side, cfg.stopSlippage) else hit.0;
    assert price == SentAt(cfg, held.side == Long, hit.0, hit.1);
    hide SentAt, SlippedStopPrice;
    var fill := SimulateFill(cfg.exchange, ClosingSide(held.side), price, held.quantity, cfg.expectedSlippage).value;
    assert fill.quantity == held.quantity;
    ClosingFillIsExact(cfg, s, fill, price, now, hit.1);
    hide ApplyAndRecord, ClosedAt, SimulateFill;
  }

  // ----- runs -----

  /** The window a signal reads ends with the bar at hand, and holds as many as it may. */
  lemma WindowEndsAtBar(cfg: Config, candles: seq<Candle>, i: nat)
    requires i < |candles|
    ensures var window := History(cfg, candles, i);
            && |window| == (if i + 1 <= cfg.window then i + 1 else cfg.window)
            && forall k :: 0 <= k < |window| ==> window[k] == candles[i + 1 - |window| + k]
  {
  }

  /** The state in which bar `i` finds the account when it reads its signal. */
  function AtSignal(cfg: Config, candles: seq<Candle>, i: nat): State
    requires 0 <= cfg.warmup <= i < |candles| && AtMark(cfg, candles, i).Ok?
  {
    Mark(cfg, AtMark(cfg, candles, i).value, candles[i])
  }

  /** Every bar of every replay follows its signal, exactly. */
  lemma BarsFollowSignals(cfg: Config, candles: seq<Candle>, i: nat)
    requires 0 <= cfg.warmup <= i < |candles| && StateAfter(cfg, candles, i + 1).Ok?
    ensures StateAfter(cfg, candles, i).Ok? && AtMark(cfg, candles, i).Ok?
    ensures Sound(cfg, AtMark(cfg, candles, i).value) && Sound(cfg, AtSignal(cfg, candles, i))
    ensures FollowedSignal(cfg, AtSignal(cfg, candles, i), candles[i], History(cfg, candles, i),
                           StateAfter(cfg, candles, i + 1).value)
  {
    LastBar(cfg, candles, i + 1);
    ReplayIsSound(cfg, candles, i);
    hide StateAfter, RunProbes, Probes, Mark, Sound, ActOnSignal, History, FollowedSignal;
    var s := StateAfter(cfg, candles, i).value;
    ProbesCloseWhole(cfg, s, Probes(cfg, candles[i]));
    var m := RunProbes(cfg, s, Probes(cfg, candles[i])).value;
    SoundAfterProbes(cfg, s, Probes(cfg, candles[i]), m);
    MarkKeepsSound(cfg, m, candles[i]);
    SignalIsExact(cfg, Mark(cfg, m, candles[i]), candles[i], History(cfg, candles, i));
  }

  /** The highest of a price and the highs of some bars. */
  function HighOver(high: real, bars: seq<Bar>): real
    decreases |bars|
  {
    if bars == [] then high else HighOver(MaxReal(high, bars[0].high), bars[1..])
  }

  /** The highest price since an entry at bar `j`: its own, and those of the bars checked before bar `n`. */
  function HighSince(cfg: Config, candles: seq<Candle>, entry: real, j: nat, n: nat): real
    requires j < n <= |candles|
  {
    if n == j + 1 then entry else HighOver(HighSince(cfg, candles, entry, j, n - 1), Probes(cfg, candles[n - 1]))
  }

  /** The levels of a position opened at bar `j`, before bar `n`: those of its opening, but for a long
      trailing stop, which follows the highest price. */
  predicate LevelsStand(cfg: Config, candles: seq<Candle>, entry: real, distance: real, j: nat, n: nat, t: State)
    requires j < n <= |candles| && t.position.Some?
  {
    var long := t.position.value.side == Long;
    if cfg.policy == TrailingStop && long then
      var high := HighSince(cfg, candles, entry, j, n);
      t.highestSinceEntry == Some(high) && t.trailDistance == Some(distance) && t.stopPrice == Some(high - distance)
      && t.takeProfitPrice.None?
    else LevelsFrom(cfg, entry, distance, long, t)
  }

  /** A holding that no probe closes keeps its levels; a long trailing one follows the highs. */
  predicate Raised(cfg: Config, s: State, probes: seq<Bar>, t: State)
    requires s.position.Some?
  {
    if cfg.policy == TrailingStop && s.position.value.side == Long then
      && s.highestSinceEntry.Some? && t.highestSinceEntry == Some(HighOver(s.highestSinceEntry.value, probes))
      && t.trailDistance == s.trailDistance && t.takeProfitPrice == s.takeProfitPrice
    else SameLevels(s, t)
  }

  lemma {:induction false} ProbesRaise(cfg: Config, s: State, probes: seq<Bar>)
    requires Sound(cfg, s) && s.position.Some? && RunProbes(cfg, s, probes).Ok?
    requires RunProbes(cfg, s, probes).value.trades == s.trades
    ensures Raised(cfg, s, probes, RunProbes(cfg, s, probes).value)
    decreases |probes|
  {
    if probes != [] && !Unprotected(cfg, s) {
      var hit := ProtectiveExit(probes[0], s.position.value.side, s.stopPrice.value, s.takeProfitPrice);
      hide ProtectiveExit;
      if hit.None? {
        TrailingStopOnlyRises(cfg, s, probes[0]);
        ProbesRaise(cfg, RaiseTrailingStop(s, probes[0]), probes[1..]);
      } else {
        StopExitCloses(cfg, s, hit.value, probes[0].closeTime);
      }
    }
  }

  /** Where the stop stands when the k-th of some finer bars is checked: a long trailing one has
      followed the bars before. */
  function StopBefore(cfg: Config, s: State, probes: seq<Bar>, k: nat): real
    requires !Unprotected(cfg, s) && Sound(cfg, s) && k <= |probes|
  {
    if cfg.policy == TrailingStop && s.position.value.side == Long then
      HighOver(s.highestSinceEntry.value, probes[..k]) - s.trailDistance.value
    else s.stopPrice.value
  }

  function HitAt(cfg: Config, s: State, probes: seq<Bar>, k: nat): Option<(real, ExitReason)>
    requires !Unprotected(cfg, s) && Sound(cfg, s) && k < |probes|
  {
    ProtectiveExit(probes[k], s.position.value.side, StopBefore(cfg, s, probes, k), s.takeProfitPrice)
  }

  /** Checking moves on to the state with the stop raised. */
  lemma HitLater(cfg: Config, s: State, probes: seq<Bar>, k: nat)
    requires !Unprotected(cfg, s) && Sound(cfg, s) && 0 < k < |probes|
    ensures var t := RaiseTrailingStop(s, probes[0]);
            && !Unprotected(cfg, t) && Sound(cfg, t) && t.position == s.position && t.openedAt == s.openedAt
            && HitAt(cfg, s, probes, k) == HitAt(cfg, t, probes[1..], k - 1)
  {
    TrailingStopOnlyRises(cfg, s, probes[0]);
    assert probes[..k][1..] == probes[1..][..k - 1];
    hide ProtectiveExit;
  }

  /** What a close records of itself. */
  predicate ClosedBy(s: State, exit: real, now: Time, reason: ExitReason, t: State) {
    && Flat(t) && |t.trades| == |s.trades| + 1 && s.trades <= t.trades
    && t.trades[|s.trades|].exitPrice == exit && t.trades[|s.trades|].exitTime == now
    && t.trades[|s.trades|].exitReason == reason
  }

  /** None of the first `k` bars is hit; the next one is and closes the holding, or there is none. */
  predicate ExitsAtFirstHit(cfg: Config, s: State, probes: seq<Bar>, k: nat, t: State)
    requires Sound(cfg, s) && !Unprotected(cfg, s)
  {
    var long := s.position.value.side == Long;
    && k <= |probes| && (forall j :: 0 <= j < k ==> HitAt(cfg, s, probes, j).None?)
    && if k == |probes| then t.trades == s.trades && Raised(cfg, s, probes, t)
       else
         && HitAt(cfg, s, probes, k).Some?
         && var (level, reason) := HitAt(cfg, s, probes, k).value;
         ClosedBy(s, Executed(cfg, !long, SentAt(cfg, long, level, reason)), probes[k].closeTime, reason, t)
  }

  /** The bars are checked in order, each with the stop as the bars before it left it: the first one hit
      closes the holding at its time, and if none is hit nothing is closed. */
  lemma {:induction false} FirstHitCloses(cfg: Config, s: State, probes: seq<Bar>) returns (k: nat)
    requires Sound(cfg, s) && !Unprotected(cfg, s) && RunProbes(cfg, s, probes).Ok?
    ensures ExitsAtFirstHit(cfg, s, probes, k, RunProbes(cfg, s, probes).value)
    decreases |probes|
  {
    if probes == [] {
      return 0;
    }
    assert probes[..0] == [];
    assert HitAt(cfg, s, probes, 0) == ProtectiveExit(probes[0], s.position.value.side, s.stopPrice.value, s.takeProfitPrice);
    if HitAt(cfg, s, probes, 0).Some? {
      ExitIsExact(cfg, s, HitAt(cfg, s, probes, 0).value, probes[0].closeTime);
      return 0;
    }
    hide ProtectiveExit, ExitAt, HitAt, SentAt, Executed, Raised;
    var u := RaiseTrailingStop(s, probes[0]);
    if |probes| > 1 {
      HitLater(cfg, s, probes, 1);
    }
    TrailingStopOnlyRises(cfg, s, probes[0]);
    var l := FirstHitCloses(cfg, u, probes[1..]);
    k := l + 1;
    forall j | 0 <= j < k
      ensures HitAt(cfg, s, probes, j).None?
    {
      if j > 0 {
        HitLater(cfg, s, probes, j);
      }
    }
    if k < |probes| {
      HitLater(cfg, s, probes, k);
    } else {
      ProbesRaise(cfg, s, probes);
    }
  }

  lemma MarkKeepsLevels(cfg: Config, s: State, candle: Candle)
    ensures var t := Mark(cfg, s, candle);
            && SameLevels(s, t) && t.position == s.position && t.openedAt == s.openedAt && t.trades == s.trades
            && t.openEntryFees == s.openEntryFees && t.cash == s.cash && t.lastOrderTime == s.lastOrderTime
  {
    hide Mark;
    MarkEffect(cfg, s, candle);
  }

  lemma HighSinceLast(cfg: Config, candles: seq<Candle>, entry: real, j: nat, n: nat)
    requires j + 1 < n <= |candles|
    ensures HighSince(cfg, candles, entry, j, n) ==
            HighOver(HighSince(cfg, candles, entry, j, n - 1), Probes(cfg, candles[n - 1]))
  {
  }

  /** Nothing but the highs moves the levels of a position while it is held. */
  lemma LevelsStandOn(cfg: Config, candles: seq<Candle>, entry: real, distance: real, j: nat, n: nat, s: State, m: State,
        t: State)
    requires j + 1 < n <= |candles| && s.position.Some? && m.position.Some? && t.position.Some?
    requires s.position.value.side == m.position.value.side == t.position.value.side
    requires LevelsStand(cfg, candles, entry, distance, j, n - 1, s) && Sound(cfg, m)
    requires Raised(cfg, s, Probes(cfg, candles[n - 1]), m) && SameLevels(m, t)
    ensures LevelsStand(cfg, candles, entry, distance, j, n, t)
  {
    hide Probes, HighOver, HighSince;
    HighSinceLast(cfg, candles, entry, j, n);
  }

  /** Bar `j` opened what is held after bar `n - 1`: flat when its signal came, at the signal's price, and
      never closed since. */
  predicate OpenedAtBar(cfg: Config, candles: seq<Candle>, j: nat, n: nat, t: State)
    requires 0 <= cfg.warmup <= j < n <= |candles|
  {
    && AtMark(cfg, candles, j).Ok? && StateAfter(cfg, candles, j + 1).Ok?
    && AtMark(cfg, candles, j).value.position.None? && t.position.Some?
    && cfg.signal(History(cfg, candles, j)) == (if t.position.value.side == Long then SignalBuy else SignalSell)
    && t.openedAt == Some(candles[j].closeTime)
    && t.trades == StateAfter(cfg, candles, j + 1).value.trades
  }

  /** The price of a signal at a bar. */
  function EntryAt(cfg: Config, candles: seq<Candle>, j: nat, long: bool): real
    requires j < |candles|
  {
    Executed(cfg, long, candles[j].close)
  }

  /** From flat, a signal that leaves a position opened it. */
  lemma FromFlat(cfg: Config, s: State, candle: Candle, history: seq<Candle>, t: State)
    requires s.position.None? && s.openedAt.None? && FollowedSignal(cfg, s, candle, history, t) && t.position.Some?
    ensures var long := t.position.value.side == Long;
            && cfg.signal(history) == (if long then SignalBuy else SignalSell)
            && t.openedAt == Some(candle.closeTime) && t.trades == s.trades
            && t.position.value.averageEntryPrice == Executed(cfg, long, candle.close)
            && LevelsFrom(cfg, Executed(cfg, long, candle.close), cfg.stopDistance(history), long, t)
  {
    hide RiskInputOf, Executed, FeeFor, LevelsFrom;
  }

  /** A holding still there after a signal was not closed by it, and its levels stand. */
  lemma StaysHeld(cfg: Config, s: State, candle: Candle, history: seq<Candle>, t: State)
    requires s.position.Some? && s.openedAt.Some? && FollowedSignal(cfg, s, candle, history, t) && t.position.Some?
    ensures t.position.value.side == s.position.value.side && t.openedAt == s.openedAt && t.trades == s.trades
    ensures SameLevels(s, t)
  {
    hide RiskInputOf, Executed, FeeFor, LevelsFrom;
  }

  lemma HeldByProbes(cfg: Config, s: State, probes: seq<Bar>, m: State)
    requires ProbedTo(cfg, s, probes, m) && m.position.Some?
    ensures s.position == m.position && s.openedAt == m.openedAt && s.trades == m.trades
  {
  }

  lemma LevelsStandFirst(cfg: Config, candles: seq<Candle>, entry: real, distance: real, j: nat, t: State)
    requires j < |candles| && t.position.Some? && LevelsFrom(cfg, entry, distance, t.position.value.side == Long, t)
    ensures LevelsStand(cfg, candles, entry, distance, j, j + 1, t)
  {
  }

  lemma SoundHolds(cfg: Config, s: State)
    requires Sound(cfg, s)
    ensures s.position.Some? == s.openedAt.Some?
  {
  }

  lemma OpensHere(cfg: Config, candles: seq<Candle>, i: nat)
    requires 0 <= cfg.warmup <= i < |candles| && StateAfter(cfg, candles, i + 1).Ok?
    requires StateAfter(cfg, candles, i + 1).value.position.Some?
    requires AtMark(cfg, candles, i).Ok? && AtMark(cfg, candles, i).value.position.None?
    ensures var t := StateAfter(cfg, candles, i + 1).value;
            var long := t.position.value.side == Long;
            && OpenedAtBar(cfg, candles, i, i + 1, t)
            && t.position.value.averageEntryPrice == EntryAt(cfg, candles, i, long)
            && LevelsFrom(cfg, EntryAt(cfg, candles, i, long), cfg.stopDistance(History(cfg, candles, i)), long, t)
            && LevelsStand(cfg, candles, EntryAt(cfg, candles, i, long), cfg.stopDistance(History(cfg, candles, i)),
                           i, i + 1, t)
  {
    BarsFollowSignals(cfg, candles, i);
    MarkKeepsLevels(cfg, AtMark(cfg, candles, i).value, candles[i]);
    BarKeepsTheLedger(cfg, candles, i);
    SoundHolds(cfg, AtSignal(cfg, candles, i));
    hide StateAfter, AtMark, Mark, History, Executed, FeeFor, Sound, FollowedSignal, LevelsFrom, LevelsStand;
    var t := StateAfter(cfg, candles, i + 1).value;
    FromFlat(cfg, AtSignal(cfg, candles, i), candles[i], History(cfg, candles, i), t);
    LevelsStandFirst(cfg, candles, EntryAt(cfg, candles, i, t.position.value.side == Long),
                     cfg.stopDistance(History(cfg, candles, i)), i, t);
  }

  /** In every replay, a position opened from flat has its stop the stop distance of that bar's window
      away from the price it was entered at, and under a target policy its target that distance times
      the reward/risk ratio away on the other side; and there both stay until it is closed, also when it
      is added to, but for a long trailing stop, which stays the distance below the highest price since. */
  lemma {:induction false} LevelsFollowOpening(cfg: Config, candles: seq<Candle>, n: nat) returns (j: nat)
    requires 0 <= cfg.warmup < n <= |candles| && StateAfter(cfg, candles, n).Ok?
    requires StateAfter(cfg, candles, n).value.position.Some?
    ensures cfg.warmup <= j < n
    ensures var t := StateAfter(cfg, candles, n).value;
            && OpenedAtBar(cfg, candles, j, n, t)
            && LevelsStand(cfg, candles, EntryAt(cfg, candles, j, t.position.value.side == Long),
                           cfg.stopDistance(History(cfg, candles, j)), j, n, t)
  {
    hide StateAfter, AtMark, LevelsStand, Raised, SameLevels, Sound, FollowedSignal, AtSignal, History, Probes, OpenedAtBar;
    var i := n - 1;
    BarsFollowSignals(cfg, candles, i);
    var m := AtMark(cfg, candles, i).value;
    if m.position.None? {
      OpensHere(cfg, candles, i);
      return i;
    }
    var s := StateAfter(cfg, candles, i).value;
    var t := StateAfter(cfg, candles, n).value;
    HeldThrough(cfg, candles, i);
    j := LevelsFollowOpening(cfg, candles, i);
    OpenedStays(cfg, candles, j, n, s, t);
    LevelsStandOn(cfg, candles, EntryAt(cfg, candles, j, t.position.value.side == Long),
                  cfg.stopDistance(History(cfg, candles, j)), j, n, s, m, t);
  }

  lemma OpenedStays(cfg: Config, candles: seq<Candle>, j: nat, n: nat, s: State, t: State)
    requires 0 <= cfg.warmup <= j && j + 1 < n <= |candles| && OpenedAtBar(cfg, candles, j, n - 1, s) && t.position.Some?
    requires t.position.value.side == s.position.value.side && t.openedAt == s.openedAt && t.trades == s.trades
    ensures OpenedAtBar(cfg, candles, j, n, t)
  {
    hide StateAfter, AtMark, History;
  }

  lemma ProbedAtMark(cfg: Config, candles: seq<Candle>, i: nat)
    requires 0 <= cfg.warmup <= i < |candles| && AtMark(cfg, candles, i).Ok?
    ensures StateAfter(cfg, candles, i).Ok?
    ensures RunProbes(cfg, StateAfter(cfg, candles, i).value, Probes(cfg, candles[i])) == AtMark(cfg, candles, i)
  {
    hide StateAfter, RunProbes, Probes;
  }

  lemma FirstIsFlat(cfg: Config, candles: seq<Candle>)
    requires 0 <= cfg.warmup < |candles| && AtMark(cfg, candles, cfg.warmup).Ok?
    ensures AtMark(cfg, candles, cfg.warmup).value.position.None?
  {
    ProbedAtMark(cfg, candles, cfg.warmup);
    FirstState(cfg, candles);
    InitialIsUnprotected(cfg, Probes(cfg, candles[cfg.warmup]));
    hide StateAfter, RunProbes, Probes, AtMark;
  }

  /** A holding that is there when the signal comes and still after the bar was there before, on the
      same side, since the same time, and with the same trades behind it. */
  lemma HeldThrough(cfg: Config, candles: seq<Candle>, i: nat)
    requires 0 <= cfg.warmup <= i < |candles| && StateAfter(cfg, candles, i + 1).Ok?
    requires StateAfter(cfg, candles, i + 1).value.position.Some?
    requires AtMark(cfg, candles, i).Ok? && AtMark(cfg, candles, i).value.position.Some?
    ensures StateAfter(cfg, candles, i).Ok? && i > cfg.warmup
    ensures var (s, m, t) := (StateAfter(cfg, candles, i).value, AtMark(cfg, candles, i).value,
                              StateAfter(cfg, candles, i + 1).value);
            && s.position.Some? && Sound(cfg, m)
            && s.position.value.side == m.position.value.side == t.position.value.side
            && t.openedAt == s.openedAt && t.trades == s.trades
            && Raised(cfg, s, Probes(cfg, candles[i]), m) && SameLevels(m, t)
  {
    hide StateAfter, AtMark, Mark, History, RunProbes, Probes, FollowedSignal, Sound, ProbedTo, SameLevels, Raised;
    BarsFollowSignals(cfg, candles, i);
    ReplayIsSound(cfg, candles, i);
    ProbedAtMark(cfg, candles, i);
    var (s, m, t) := (StateAfter(cfg, candles, i).value, AtMark(cfg, candles, i).value, StateAfter(cfg, candles, i + 1).value);
    if i == cfg.warmup {
      FirstIsFlat(cfg, candles);
    }
    MarkKeepsLevels(cfg, m, candles[i]);
    SoundHolds(cfg, AtSignal(cfg, candles, i));
    var probes := Probes(cfg, candles[i]);
    ProbesCloseWhole(cfg, s, probes);
    HeldByProbes(cfg, s, probes, m);
    ProbesRaise(cfg, s, probes);
    StaysHeld(cfg, AtSignal(cfg, candles, i), candles[i], History(cfg, candles, i), t);
    LevelsCarry(m, AtSignal(cfg, candles, i), t);
  }

  lemma LevelsCarry(s: State, t: State, u: State)
    requires SameLevels(s, t) && SameLevels(t, u)
    ensures SameLevels(s, u)
  {
  }

  /** In every replay, a bar that finds a protected position checks the finer bars inside it, or itself
      if there are none, and the first one hit closes the position; a bar that finds none checks nothing. */
  lemma BarExitsAtFirstHit(cfg: Config, candles: seq<Candle>, i: nat) returns (k: nat)
    requires 0 <= cfg.warmup <= i < |candles| && AtMark(cfg, candles, i).Ok?
    ensures StateAfter(cfg, candles, i).Ok? && Sound(cfg, StateAfter(cfg, candles, i).value)
    ensures var (s, m, candle) := (StateAfter(cfg, candles, i).value, AtMark(cfg, candles, i).value, candles[i]);
            var finer := if candle.openTime in cfg.monitor then cfg.monitor[candle.openTime] else [];
            var bars := if finer != [] then finer else [Bar(candle.closeTime, candle.open, candle.high, candle.low)];
            if Unprotected(cfg, s) then m == s else ExitsAtFirstHit(cfg, s, bars, k, m)
  {
    hide StateAfter, AtMark, Sound, ExitsAtFirstHit;
    ProbedAtMark(cfg, candles, i);
    k := 0;
    ReplayIsSound(cfg, candles, i);
    if !Unprotected(cfg, StateAfter(cfg, candles, i).value) {
      k := FirstHitCloses(cfg, StateAfter(cfg, candles, i).value, Probes(cfg, candles[i]));
    }
  }
}
