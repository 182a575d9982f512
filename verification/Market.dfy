/** Market data and enumerations shared by the trading cores.
    Prices and amounts are integers in units of 10^-8, the scale of the
    `Decimal(20, 8)` and `Decimal(24, 8)` columns they are stored in. */
module Market {

  datatype Option<+T> = None | Some(value: T)

  datatype Candle = Candle(timestamp: int, open: int, high: int, low: int, close: int)

  datatype TradeDirection = Buy | Sell

  datatype SignalDirection = SignalBuy | SignalSell | SignalNone | SignalNeutral

  datatype TradeResult = Win | Loss | Breakeven

  predicate WellFormed(c: Candle)
  {
    c.low <= c.close <= c.high
  }

  /** Candles come back in ascending order and (instrument, timeframe,
      timestamp) is a unique key, so the order is strict. */
  predicate Ascending(candles: seq<Candle>)
  {
    forall i, j :: 0 <= i < j < |candles| ==> candles[i].timestamp < candles[j].timestamp
  }

  function ResultOfPnl(pnl: int): TradeResult
  {
    if pnl > 0 then Win else if pnl < 0 then Loss else Breakeven
  }
}
