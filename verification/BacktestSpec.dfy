/** What a backtest should produce, said one signal at a time.

    The strategy is an oracle over the candles seen so far.  Signal `i` becomes
    a trade entered at the close of candle `i + 1`; the trade leaves at its own
    first candle that touches its stop or target.  Nothing here mentions the
    list of open positions: the engine's interleaved loop is proved to compute
    these functions in `BacktestEngine`. */
module BacktestSpec {
  import opened Market
  import opened Rounding
  import opened Sequences

  datatype StrategyResult = StrategyResult(
    direction: SignalDirection,
    stopLoss: Option<int>,
    takeProfit: Option<int>,
    reason: string,
    shouldCreateSignal: bool)

  datatype Input = Input(
    initialBalance: int,
    riskPercent: Option<real>,
    candles: seq<Candle>,
    strategy: seq<Candle> -> Option<StrategyResult>)

  datatype Trade = Trade(
    direction: TradeDirection,
    entryPrice: int,
    stopLoss: int,
    takeProfit: int,
    positionSize: int,
    openedAt: int)

  datatype ClosedTrade = ClosedTrade(
    trade: Trade,
    closedAt: int,
    exitPrice: int,
    pnl: int,
    pnlPercent: int,
    result: TradeResult)

  datatype Exit = Exit(price: int, result: TradeResult)

  const DEFAULT_RISK_PERCENT: real := 0.01

  // ----- arithmetic of one trade -----

  function RiskPercent(inp: Input): real
  {
    match inp.riskPercent
    case Some(r) => r
    case None => DEFAULT_RISK_PERCENT
  }

  function ExitForCandle(t: Trade, c: Candle): Option<Exit>
  {
    if t.direction.Buy? then
      if c.low <= t.stopLoss then Some(Exit(t.stopLoss, Loss))
      else if c.high >= t.takeProfit then Some(Exit(t.takeProfit, Win))
      else None
    else
      if c.high >= t.stopLoss then Some(Exit(t.stopLoss, Loss))
      else if c.low <= t.takeProfit then Some(Exit(t.takeProfit, Win))
      else None
  }

  function PositionSize(balance: int, riskPercent: real, riskPerUnit: int): int
    requires riskPerUnit > 0
  {
    Round(balance as real * riskPercent / riskPerUnit as real * ONE as real)
  }

  /** A price move times a size, in units of 10^-8 before rounding. */
  function Proceeds(delta: int, size: int): real
  {
    (delta * size) as real / ONE as real
  }

  function CalculatePnl(t: Trade, exitPrice: int): int
  {
    var delta := if t.direction.Buy? then exitPrice - t.entryPrice else t.entryPrice - exitPrice;
    Round(Proceeds(delta, t.positionSize))
  }

  function PnlPercent(pnl: int, balance: int): int
  {
    if balance == 0 then 0 else Round(pnl as real / balance as real * ONE as real)
  }

  function CloseAt(t: Trade, c: Candle, exit: Exit, balance: int): ClosedTrade
  {
    var pnl := CalculatePnl(t, exit.price);
    ClosedTrade(t, c.timestamp, exit.price, pnl, PnlPercent(pnl, balance), exit.result)
  }

  function CloseAtEnd(t: Trade, last: Candle, balance: int): ClosedTrade
  {
    var pnl := CalculatePnl(t, last.close);
    ClosedTrade(t, last.timestamp, last.close, pnl, PnlPercent(pnl, balance), ResultOfPnl(pnl))
  }

  // ----- which signals become trades -----

  ghost function SignalAt(inp: Input, i: nat): Option<StrategyResult>
    requires i < |inp.candles|
  {
    inp.strategy(inp.candles[..i + 1])
  }

  ghost predicate Accepted(inp: Input, i: nat)
  {
    && i + 2 < |inp.candles|
    && SignalAt(inp, i).Some?
    && var r := SignalAt(inp, i).value;
       && r.shouldCreateSignal
       && (r.direction.SignalBuy? || r.direction.SignalSell?)
       && r.stopLoss.Some?
       && r.takeProfit.Some?
       && r.stopLoss.value != inp.candles[i + 1].close
  }

  ghost function TradeOfSize(inp: Input, i: nat, size: int): Trade
    requires Accepted(inp, i)
  {
    var r := SignalAt(inp, i).value;
    Trade(if r.direction.SignalBuy? then Buy else Sell,
          inp.candles[i + 1].close, r.stopLoss.value, r.takeProfit.value, size,
          inp.candles[i + 1].timestamp)
  }

  // ----- where a trade leaves -----

  ghost predicate Touches(inp: Input, i: nat, j: nat)
    requires Accepted(inp, i) && j < |inp.candles|
  {
    && inp.candles[i + 1].timestamp < inp.candles[j].timestamp
    && ExitForCandle(TradeOfSize(inp, i, 0), inp.candles[j]).Some?
  }

  /** The first candle from `j` on that touches trade `i`, or the number of candles. */
  ghost function FirstTouch(inp: Input, i: nat, j: nat): (e: nat)
    requires Accepted(inp, i) && j <= |inp.candles|
    ensures j <= e <= |inp.candles|
    ensures e < |inp.candles| ==> Touches(inp, i, e)
    ensures forall k :: j <= k < e ==> !Touches(inp, i, k)
    decreases |inp.candles| - j
  {
    if j == |inp.candles| || Touches(inp, i, j) then j else FirstTouch(inp, i, j + 1)
  }

  ghost function ExitIndex(inp: Input, i: nat): (e: nat)
    requires Accepted(inp, i)
    ensures i + 2 <= e <= |inp.candles|
    ensures e < |inp.candles| ==> Touches(inp, i, e)
    ensures forall k :: i < k < e ==> !Touches(inp, i, k)
  {
    assert !Touches(inp, i, i + 1);
    FirstTouch(inp, i, i + 1)
  }

  ghost function ExitPrice(inp: Input, i: nat): int
    requires Accepted(inp, i)
  {
    var e := ExitIndex(inp, i);
    if e < |inp.candles| then ExitForCandle(TradeOfSize(inp, i, 0), inp.candles[e]).value.price
    else inp.candles[|inp.candles| - 1].close
  }

  // ----- the moving balance -----

  /** The profit of trade `i`, whose size depends on the balance at its signal. */
  ghost function Pnl(inp: Input, i: nat): int
    requires Accepted(inp, i)
    decreases i, 3
  {
    CalculatePnl(SpecTrade(inp, i), ExitPrice(inp, i))
  }

  ghost function SpecTrade(inp: Input, i: nat): Trade
    requires Accepted(inp, i)
    decreases i, 2
  {
    var t := TradeOfSize(inp, i, 0);
    t.(positionSize := PositionSize(BalanceAtSignal(inp, i), RiskPercent(inp),
                                    AbsInt(t.entryPrice - t.stopLoss)))
  }

  /** The balance once candle `i` has closed what it touches. */
  ghost function BalanceAtSignal(inp: Input, i: nat): int
    decreases i, 1
  {
    inp.initialBalance + Realised(inp, i + 1, i)
  }

  /** Profit of the trades signalled before `m` that left before candle `j`. */
  ghost function Realised(inp: Input, j: nat, m: nat): int
    decreases m, 0
  {
    if m == 0 then 0
    else Realised(inp, j, m - 1)
         + if Accepted(inp, m - 1) && ExitIndex(inp, m - 1) < j then Pnl(inp, m - 1) else 0
  }

  ghost function BalanceBefore(inp: Input, j: nat): int
  {
    inp.initialBalance + Realised(inp, j, j)
  }

  ghost function SpecClosed(inp: Input, i: nat): ClosedTrade
    requires Accepted(inp, i)
  {
    var e := ExitIndex(inp, i);
    var t := SpecTrade(inp, i);
    if e < |inp.candles| then
      assert ExitForCandle(t, inp.candles[e]) == ExitForCandle(TradeOfSize(inp, i, 0), inp.candles[e]);
      CloseAt(t, inp.candles[e], ExitForCandle(t, inp.candles[e]).value, BalanceBefore(inp, e))
    else
      CloseAtEnd(t, inp.candles[|inp.candles| - 1], BalanceBefore(inp, e))
  }

  // ----- the order trades are reported in -----

  ghost predicate AllAccepted(inp: Input, ks: seq<nat>)
  {
    forall q :: 0 <= q < |ks| ==> Accepted(inp, ks[q])
  }

  /** Signals before `m` whose trade leaves at `e`, oldest first. */
  ghost function LeavingAt(inp: Input, e: nat, m: nat): (ks: seq<nat>)
    ensures AllAccepted(inp, ks)
    ensures forall q :: 0 <= q < |ks| ==> ks[q] < m && ExitIndex(inp, ks[q]) == e
  {
    if m == 0 then []
    else if Accepted(inp, m - 1) && ExitIndex(inp, m - 1) == e then LeavingAt(inp, e, m - 1) + [m - 1]
    else LeavingAt(inp, e, m - 1)
  }

  /** Signals before `m` whose trade is still open when candle `j` arrives, oldest first. */
  ghost function OpenBefore(inp: Input, j: nat, m: nat): (ks: seq<nat>)
    ensures AllAccepted(inp, ks)
    ensures forall q :: 0 <= q < |ks| ==> ks[q] < m && ExitIndex(inp, ks[q]) >= j
  {
    if m == 0 then []
    else if Accepted(inp, m - 1) && ExitIndex(inp, m - 1) >= j then OpenBefore(inp, j, m - 1) + [m - 1]
    else OpenBefore(inp, j, m - 1)
  }

  /** Trades that left on a candle before `j`: by candle, youngest first within one. */
  ghost function ClosedBefore(inp: Input, j: nat): (ks: seq<nat>)
    ensures AllAccepted(inp, ks)
  {
    if j == 0 then []
    else
      ReverseElements(LeavingAt(inp, j - 1, j - 1));
      ClosedBefore(inp, j - 1) + Reverse(LeavingAt(inp, j - 1, j - 1))
  }

  /** The whole report: touched trades, then the leftovers oldest first. */
  ghost function ReportOrder(inp: Input): (ks: seq<nat>)
    ensures AllAccepted(inp, ks)
  {
    var n := |inp.candles|;
    ClosedBefore(inp, n) + LeavingAt(inp, n, n)
  }

  ghost function TradesOf(inp: Input, ks: seq<nat>): (ts: seq<Trade>)
    requires AllAccepted(inp, ks)
    ensures |ts| == |ks|
    ensures forall q :: 0 <= q < |ks| ==> ts[q] == SpecTrade(inp, ks[q])
  {
    if ks == [] then [] else TradesOf(inp, ks[..|ks| - 1]) + [SpecTrade(inp, ks[|ks| - 1])]
  }

  ghost function ClosedOf(inp: Input, ks: seq<nat>): (cs: seq<ClosedTrade>)
    requires AllAccepted(inp, ks)
    ensures |cs| == |ks|
    ensures forall q :: 0 <= q < |ks| ==> cs[q] == SpecClosed(inp, ks[q])
  {
    if ks == [] then [] else ClosedOf(inp, ks[..|ks| - 1]) + [SpecClosed(inp, ks[|ks| - 1])]
  }

  // ----- filter counters -----

  predicate OccursAt(s: string, t: string, i: nat)
  {
    i + |t| <= |s| && s[i..i + |t|] == t
  }

  predicate Contains(s: string, t: string)
  {
    exists i :: 0 <= i <= |s| && OccursAt(s, t, i)
  }

  predicate Filtered(r: StrategyResult)
  {
    && !r.shouldCreateSignal
    && "NO_SIGNAL:" <= r.reason
    && (Contains(r.reason, "ranging") || Contains(r.reason, "multi-timeframe")
        || Contains(r.reason, "nearest resistance") || Contains(r.reason, "nearest support"))
  }

  ghost function CreatedCount(inp: Input, m: nat): nat
    requires m <= |inp.candles|
  {
    if m == 0 then 0
    else CreatedCount(inp, m - 1)
         + if SignalAt(inp, m - 1).Some? && SignalAt(inp, m - 1).value.shouldCreateSignal then 1 else 0
  }

  /** How many of the first `m` candles were filtered for exactly this reason. */
  ghost function FilteredFor(inp: Input, reason: string, m: nat): nat
    requires m <= |inp.candles|
  {
    if m == 0 then 0
    else FilteredFor(inp, reason, m - 1)
         + if SignalAt(inp, m - 1).Some? && Filtered(SignalAt(inp, m - 1).value)
              && SignalAt(inp, m - 1).value.reason == reason then 1 else 0
  }

  ghost function FilteredCount(inp: Input, m: nat): nat
    requires m <= |inp.candles|
  {
    if m == 0 then 0
    else FilteredCount(inp, m - 1)
         + if SignalAt(inp, m - 1).Some? && Filtered(SignalAt(inp, m - 1).value) then 1 else 0
  }
}
