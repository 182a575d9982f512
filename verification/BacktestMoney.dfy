/** What a specified trade is worth, said of its own terms: direction, size and
    profit of every accepted signal's trade, however it leaves. */
module BacktestMoney {
  import opened Market
  import opened Numbers
  import opened Rounding
  import opened BacktestSpec

  // ----- rounded figures, multiplied out -----

  /** `n` is the product `x * y` of two amounts, to the nearest unit. */
  predicate NearestProduct(n: int, x: int, y: int)
  {
    2 * AbsInt(n * ONE - x * y) <= ONE
  }

  /** `n` is the ratio `x / y` to the nearest unit. */
  predicate NearestRatio(n: int, x: int, y: int)
  {
    2 * AbsInt(n * y - x * ONE) <= AbsInt(y)
  }

  /** `size` times `distance` is the money at risk, up to half a unit of size. */
  predicate SizedFor(size: int, risk: real, distance: int)
  {
    Abs(size as real * distance as real - risk * ONE as real) <= 0.5 * distance as real
  }

  /** A rounding error of half a unit, multiplied by `d`. */
  lemma RoundedTimes(q: real, d: real, n: int)
    requires n == Round(q)
    ensures Abs(n as real * d - q * d) <= 0.5 * Abs(d)
  {
    assert Abs(n as real - q) <= 0.5;
    hide Round;
    ErrorTimes(n as real - q, d);
    assert (n as real - q) * d == n as real * d - q * d;
  }

  lemma ErrorTimes(e: real, d: real)
    requires Abs(e) <= 0.5
    ensures Abs(e * d) <= 0.5 * Abs(d)
  {
    var m := Abs(d);
    NonNegativeProduct(0.5 - e, m);
    NonNegativeProduct(0.5 + e, m);
    assert (0.5 - e) * m == 0.5 * m - e * m && (0.5 + e) * m == 0.5 * m + e * m;
    assert e * -d == -(e * d);
  }

  lemma ScaledBack(x: real, d: real, one: real)
    requires d != 0.0
    ensures x / d * one * d == x * one
  {
    var q := x / d;
    assert q * d == x;
    assert q * one * d == q * d * one;
  }

  lemma InUnits(n: int, d: int, z: int, bound: int)
    requires Abs(n as real * d as real - z as real) <= 0.5 * bound as real
    ensures 2 * AbsInt(n * d - z) <= bound
  {
    assert n as real * d as real == (n * d) as real;
  }

  lemma ProductRounds(x: int, y: int, n: int)
    requires n == Round(Proceeds(x, y))
    ensures NearestProduct(n, x, y)
  {
    var z, one := x * y, ONE;
    RoundedTimes(z as real / one as real, one as real, n);
    hide Round;
    assert z as real / one as real * one as real == z as real;
    InUnits(n, one, z, one);
  }

  /** A ratio in units, before rounding. */
  function Scaled(x: real, y: real): real
    requires y != 0.0
  {
    x / y * ONE as real
  }

  lemma RatioTimes(x: real, y: real, n: int)
    requires y != 0.0 && n == Round(Scaled(x, y))
    ensures Abs(n as real * y - x * ONE as real) <= 0.5 * Abs(y)
  {
    var q := Scaled(x, y);
    assert q * y == x * ONE as real by {
      ScaledBack(x, y, ONE as real);
    }
    RoundedTimes(q, y, n);
    hide Round, Scaled;
  }

  lemma RatioRounds(x: int, y: int, n: int)
    requires y != 0 && n == Round(Scaled(x as real, y as real))
    ensures NearestRatio(n, x, y)
  {
    RatioTimes(x as real, y as real, n);
    hide Round, Scaled;
    RatioInUnits(n, x, y);
  }

  lemma RatioInUnits(n: int, x: int, y: int)
    requires Abs(n as real * y as real - x as real * ONE as real) <= 0.5 * Abs(y as real)
    ensures NearestRatio(n, x, y)
  {
    assert n as real * y as real == (n * y) as real;
  }

  /** The part of a balance put at risk. */
  function Part(balance: int, share: real): real
  {
    balance as real * share
  }

  lemma SizeUnfolds(balance: int, share: real, distance: int)
    requires distance > 0
    ensures PositionSize(balance, share, distance) == Round(Scaled(Part(balance, share), distance as real))
  {
    hide Round;
  }

  lemma SizeRounds(balance: int, share: real, distance: int, n: int)
    requires distance > 0 && n == PositionSize(balance, share, distance)
    ensures SizedFor(n, Part(balance, share), distance)
  {
    SizeUnfolds(balance, share, distance);
    hide Round, PositionSize, Part, Scaled;
    RatioTimes(Part(balance, share), distance as real, n);
  }

  /** `n` is the quotient `x / y` to the nearest whole unit. */
  predicate NearestQuotient(n: int, x: int, y: int)
  {
    2 * AbsInt(n * y - x) <= AbsInt(y)
  }

  lemma QuotientRounds(x: int, y: int, n: int)
    requires y != 0 && n == Round(x as real / y as real)
    ensures NearestQuotient(n, x, y)
  {
    QuotientTimes(x as real, y as real, n);
    hide Round;
    InUnits(n, y, x, AbsInt(y));
  }

  lemma QuotientTimes(x: real, y: real, n: int)
    requires y != 0.0 && n == Round(x / y)
    ensures Abs(n as real * y - x) <= 0.5 * Abs(y)
  {
    var q := x / y;
    assert q * y == x;
    RoundedTimes(q, y, n);
    hide Round;
  }

  // ----- the terms of a trade -----

  /** The trade has the signal's direction and levels and enters at the next close. */
  lemma TradeHasSignalTerms(inp: Input, i: nat)
    requires Accepted(inp, i)
    ensures var r, t := SignalAt(inp, i).value, SpecClosed(inp, i).trade;
            && SignalAt(inp, i) == inp.strategy(inp.candles[..i + 1])
            && (t.direction.Buy? <==> r.direction.SignalBuy?) && (t.direction.Sell? <==> r.direction.SignalSell?)
            && Some(t.stopLoss) == r.stopLoss && Some(t.takeProfit) == r.takeProfit
            && t.entryPrice == inp.candles[i + 1].close && t.openedAt == inp.candles[i + 1].timestamp
  {
    hide ExitIndex, PositionSize, CalculatePnl, BalanceBefore, BalanceAtSignal;
  }

  /** The share of the balance a backtest puts at risk: 1% unless given. */
  function RiskShare(inp: Input): real
  {
    if inp.riskPercent.Some? then inp.riskPercent.value else 0.01
  }

  /** The money at risk when the signal is sized. */
  ghost function AtRisk(inp: Input, i: nat): real
  {
    Part(BalanceAtSignal(inp, i), RiskShare(inp))
  }

  /** Size times distance to the stop is the money at risk, up to half a unit of
      size. */
  lemma SizedByRisk(inp: Input, i: nat)
    requires Accepted(inp, i)
    ensures var t := SpecClosed(inp, i).trade;
            var distance := AbsInt(t.entryPrice - t.stopLoss);
            distance > 0 && SizedFor(t.positionSize, AtRisk(inp, i), distance)
  {
    SizeTerms(inp, i);
    hide *;
    var t := SpecClosed(inp, i).trade;
    SizeRounds(BalanceAtSignal(inp, i), RiskPercent(inp), AbsInt(t.entryPrice - t.stopLoss), t.positionSize);
    AtRiskUnfolds(inp, i);
  }

  lemma SizeTerms(inp: Input, i: nat)
    requires Accepted(inp, i)
    ensures var t := SpecClosed(inp, i).trade;
            var distance: int := AbsInt(t.entryPrice - t.stopLoss);
            distance > 0 && t.positionSize == PositionSize(BalanceAtSignal(inp, i), RiskPercent(inp), distance)
  {
    hide ExitIndex, CalculatePnl, BalanceBefore, BalanceAtSignal, PositionSize, RiskPercent;
  }

  lemma AtRiskUnfolds(inp: Input, i: nat)
    ensures AtRisk(inp, i) == Part(BalanceAtSignal(inp, i), RiskPercent(inp))
  {
    hide BalanceAtSignal, Part;
    assert RiskPercent(inp) == RiskShare(inp);
  }

  // ----- profit -----

  /** How far the price moved in the trade's favour. */
  function Move(t: Trade, exitPrice: int): int
  {
    match t.direction
    case Buy => exitPrice - t.entryPrice
    case Sell => t.entryPrice - exitPrice
  }

  /** However a trade leaves, its profit is move times size, to the nearest unit. */
  lemma ProfitIsMoveTimesSize(inp: Input, i: nat)
    requires Accepted(inp, i)
    ensures var x := SpecClosed(inp, i);
            NearestProduct(x.pnl, Move(x.trade, x.exitPrice), x.trade.positionSize)
  {
    PnlRounds(inp, i);
    hide *;
    var x := SpecClosed(inp, i);
    ProductRounds(Move(x.trade, x.exitPrice), x.trade.positionSize, x.pnl);
  }

  lemma PnlRounds(inp: Input, i: nat)
    requires Accepted(inp, i)
    ensures var x := SpecClosed(inp, i);
            x.pnl == Round(Proceeds(Move(x.trade, x.exitPrice), x.trade.positionSize))
  {
    hide ExitIndex, PositionSize, BalanceBefore, BalanceAtSignal, Round, Accepted, Proceeds;
  }

  /** With money at risk, a move in the trade's favour never loses and a move
      against it never gains; once the balance is negative the size is too, and
      both turn round. */
  lemma ProfitFollowsMove(inp: Input, i: nat)
    requires Accepted(inp, i)
    ensures var x := SpecClosed(inp, i);
            var move := Move(x.trade, x.exitPrice);
            && (AtRisk(inp, i) >= 0.0 ==>
                  x.trade.positionSize >= 0 && (move >= 0 ==> x.pnl >= 0) && (move <= 0 ==> x.pnl <= 0))
            && (AtRisk(inp, i) <= 0.0 ==>
                  x.trade.positionSize <= 0 && (move >= 0 ==> x.pnl <= 0) && (move <= 0 ==> x.pnl >= 0))
  {
    SizedByRisk(inp, i);
    ProfitIsMoveTimesSize(inp, i);
    hide *;
    var x := SpecClosed(inp, i);
    SizeSign(x.trade.positionSize, AtRisk(inp, i), AbsInt(x.trade.entryPrice - x.trade.stopLoss));
    ProfitSign(x.pnl, Move(x.trade, x.exitPrice), x.trade.positionSize);
  }

  lemma SizeSign(size: int, risk: real, distance: int)
    requires distance > 0 && SizedFor(size, risk, distance)
    ensures (risk >= 0.0 ==> size >= 0) && (risk <= 0.0 ==> size <= 0)
  {
    if size <= -1 {
      UnitTimes(-size, distance);
    } else if size >= 1 {
      UnitTimes(size, distance);
    }
  }

  lemma UnitTimes(n: int, d: int)
    requires n >= 1 && d > 0
    ensures n as real * d as real >= d as real && -n as real * d as real <= -d as real
  {
    NonNegativeProduct((n - 1) as real, d as real);
  }

  lemma ProfitSign(pnl: int, move: int, size: int)
    requires NearestProduct(pnl, move, size)
    ensures (move >= 0 && size >= 0) || (move <= 0 && size <= 0) ==> pnl >= 0
    ensures (move >= 0 && size <= 0) || (move <= 0 && size >= 0) ==> pnl <= 0
  {
    SignOfProduct(move, size);
  }

  lemma SignOfProduct(a: int, b: int)
    ensures (a >= 0 && b >= 0) || (a <= 0 && b <= 0) ==> a * b >= 0
    ensures (a >= 0 && b <= 0) || (a <= 0 && b >= 0) ==> a * b <= 0
  {
  }

  /** With money at risk, a target beyond the entry never loses and a stop short
      of it never gains. */
  lemma LevelsPayTheirSide(inp: Input, i: nat)
    requires Accepted(inp, i) && AtRisk(inp, i) >= 0.0
    requires ExitIndex(inp, i) < |inp.candles|
    ensures var x := SpecClosed(inp, i);
            var target, stop := Move(x.trade, x.trade.takeProfit), Move(x.trade, x.trade.stopLoss);
            && (x.result.Win? && target >= 0 ==> x.exitPrice == x.trade.takeProfit && x.pnl >= 0)
            && (x.result.Loss? && stop <= 0 ==> x.exitPrice == x.trade.stopLoss && x.pnl <= 0)
            && !x.result.Breakeven?
  {
    ProfitFollowsMove(inp, i);
    hide PositionSize, BalanceBefore, BalanceAtSignal, Round, Accepted, CalculatePnl, AtRisk;
  }

  /** The percentage is profit over the balance just before, to eight places. */
  lemma PercentOfBalance(inp: Input, i: nat)
    requires Accepted(inp, i)
    ensures var x, balance := SpecClosed(inp, i), BalanceBefore(inp, ExitIndex(inp, i));
            if balance == 0 then x.pnlPercent == 0 else NearestRatio(x.pnlPercent, x.pnl, balance)
  {
    PercentTerms(inp, i);
    hide *;
    var x, balance := SpecClosed(inp, i), BalanceBefore(inp, ExitIndex(inp, i));
    PercentRounds(x.pnl, balance, x.pnlPercent);
  }

  lemma PercentTerms(inp: Input, i: nat)
    requires Accepted(inp, i)
    ensures var x := SpecClosed(inp, i);
            x.pnlPercent == PnlPercent(x.pnl, BalanceBefore(inp, ExitIndex(inp, i)))
  {
    hide ExitIndex, PositionSize, CalculatePnl, BalanceBefore, BalanceAtSignal, Accepted, PnlPercent;
  }

  lemma PercentRounds(pnl: int, balance: int, n: int)
    requires n == PnlPercent(pnl, balance)
    ensures if balance == 0 then n == 0 else NearestRatio(n, pnl, balance)
  {
    if balance != 0 {
      RatioRounds(pnl, balance, n);
    }
    hide NearestRatio;
  }

  /** A trade closed because the data ended is labelled by its profit. */
  lemma LabelAtEnd(inp: Input, i: nat)
    requires Accepted(inp, i) && ExitIndex(inp, i) == |inp.candles|
    ensures var x := SpecClosed(inp, i);
            (x.result.Win? <==> x.pnl > 0) && (x.result.Loss? <==> x.pnl < 0) && (x.result.Breakeven? <==> x.pnl == 0)
  {
    hide PositionSize, CalculatePnl, BalanceBefore, BalanceAtSignal, Accepted;
  }
}
