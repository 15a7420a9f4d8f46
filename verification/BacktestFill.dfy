/** Fill simulation and net-position accounting
    (app/trading/application/backtest_fill.py). Money and quantities are exact reals. */
module BacktestFill {
  import opened Wrappers

  datatype OrderSide = Buy | Sell
  datatype PositionSide = Long | Short
  datatype Exchange = Oanda | Binance | Other(code: string)

  /** Everything a replay can raise. */
  datatype Error =
    | UnsupportedExchange
    | InvalidFillPrice
    | ShortNotSupported
    | DivisionByZero
    | NegativeWarmup
    | NegativeStopSlippage
    | AssertionFailed

  datatype Fill = Fill(price: real, quantity: real, feeAmount: real)
  datatype Position = Position(side: PositionSide, quantity: real, averageEntryPrice: real)
  datatype FillOutcome = FillOutcome(position: Option<Position>, realizedPnl: real)

  function MinReal(x: real, y: real): real { if x <= y then x else y }

  function MaxReal(x: real, y: real): real { if x >= y then x else y }

  /** +1 for a long, -1 for a short. */
  function Sign(side: PositionSide): real { if side == Long then 1.0 else -1.0 }

  function OpeningSide(side: OrderSide): PositionSide { if side == Buy then Long else Short }

  /** The order side that closes a position held on `side`. */
  function ClosingSide(side: PositionSide): OrderSide { if side == Long then Sell else Buy }

  function FeeBuffer(exchange: Exchange, price: real, quantity: real): Result<real, Error> {
    match exchange
    case Oanda => Ok(0.0)
    case Binance => Ok(price * quantity * 0.001)
    case Other(_) => Err(UnsupportedExchange)
  }

  function SimulateFill(exchange: Exchange, side: OrderSide, candleClose: real, quantity: real,
                        expectedSlippage: real): Result<Fill, Error>
  {
    var price := if side == Buy then candleClose + expectedSlippage else candleClose - expectedSlippage;
    if price <= 0.0 then
      Err(InvalidFillPrice)
    else
      var fee :- FeeBuffer(exchange, candleClose, quantity);
      Ok(Fill(price, quantity, fee))
  }

  function TotalCost(held: Position, fill: Fill): real {
    held.averageEntryPrice * held.quantity + fill.price * fill.quantity
  }

  /** The held position after a fill in its own direction, at the average entry price. */
  function Increased(held: Position, fill: Fill): Position
    requires held.quantity + fill.quantity != 0.0
  {
    var quantity := held.quantity + fill.quantity;
    held.(quantity := quantity, averageEntryPrice := TotalCost(held, fill) / quantity)
  }

  /** Open, increase, reduce, exactly close, or flip the one net position. */
  function ApplyFillToPosition(position: Option<Position>, fill: Fill, side: OrderSide, allowShort: bool)
    : Result<FillOutcome, Error>
  {
    var openingSide := OpeningSide(side);
    if position.None? then
      if openingSide == Short && !allowShort then Err(ShortNotSupported)
      else Ok(FillOutcome(Some(Position(openingSide, fill.quantity, fill.price)), 0.0))
    else
      var held := position.value;
      if openingSide == held.side then
        if held.quantity + fill.quantity == 0.0 then Err(DivisionByZero)
        else Ok(FillOutcome(Some(Increased(held, fill)), 0.0))
      else
        var closing := MinReal(fill.quantity, held.quantity);
        var realized := (fill.price - held.averageEntryPrice) * closing * Sign(held.side);
        var remainder := fill.quantity - held.quantity;
        if remainder > 0.0 then
          if !allowShort then Err(ShortNotSupported)
          else Ok(FillOutcome(Some(Position(openingSide, remainder, fill.price)), realized))
        else if remainder == 0.0 then
          Ok(FillOutcome(None, realized))
        else
          Ok(FillOutcome(Some(held.(quantity := held.quantity - fill.quantity)), realized))
  }

  /** Signed entry cost of what is held: what cash paid for it (or received, for a short). */
  function EntryCost(position: Option<Position>): real {
    if position.None? then 0.0
    else position.value.averageEntryPrice * position.value.quantity * Sign(position.value.side)
  }

  function MarketValue(position: Option<Position>, price: real): real {
    if position.None? then 0.0
    else price * position.value.quantity * Sign(position.value.side)
  }

  function UnrealizedPnl(position: Option<Position>, price: real): real {
    if position.None? then 0.0
    else (price - position.value.averageEntryPrice) * position.value.quantity * Sign(position.value.side)
  }

  /** What a fill adds to the cash balance before its fee. */
  function SignedNotional(fill: Fill, side: OrderSide): real {
    if side == Sell then fill.price * fill.quantity else -(fill.price * fill.quantity)
  }

  /** Every branch of a fill trades at cost: the cash it moves is the realized profit minus the
      entry cost it adds. This is the double-entry identity behind the replay ledger. */
  lemma FillConservesValue(position: Option<Position>, fill: Fill, side: OrderSide, allowShort: bool)
    ensures var r := ApplyFillToPosition(position, fill, side, allowShort);
            r.Ok? ==> SignedNotional(fill, side) + EntryCost(r.value.position)
                      == EntryCost(position) + r.value.realizedPnl
  {
  }

  /** Where cash and holdings are marked, equity differs from cash plus cost by the open profit. */
  lemma MarkIsCostPlusUnrealized(position: Option<Position>, price: real)
    ensures MarketValue(position, price) == EntryCost(position) + UnrealizedPnl(position, price)
  {
  }

  /** With shorting off, no fill ever leaves a short behind. */
  lemma LongOnlyStaysLong(position: Option<Position>, fill: Fill, side: OrderSide)
    requires position.Some? ==> position.value.side == Long
    ensures var r := ApplyFillToPosition(position, fill, side, false);
            r.Ok? && r.value.position.Some? ==> r.value.position.value.side == Long
  {
  }
}
