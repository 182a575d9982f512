/** The analytics figures of a set of trades and of its groups.  Profits are in
    units of 10^-8; ratios are reals, before the final display rounding. */
module Analytics {
  import opened Market
  import opened Rounding
  import opened Sequences
  import opened Drawdown

  datatype AnalyticsTrade = AnalyticsTrade(
    id: string,
    symbol: Option<string>,
    strategyId: Option<string>,
    timeframe: Option<string>,
    pnl: int,
    openedAt: int,
    closedAt: Option<int>)

  datatype TradingMetrics = TradingMetrics(
    totalTrades: nat,
    winningTrades: nat,
    losingTrades: nat,
    breakevenTrades: nat,
    winRate: real,
    lossRate: real,
    profitFactor: real,
    grossProfit: int,
    grossLoss: int,
    netPnL: int,
    averageWin: real,
    averageLoss: real,
    expectancy: real,
    maxDrawdown: int)

  datatype Group = Group(key: string, trades: seq<AnalyticsTrade>)

  datatype GroupedTradingMetrics = GroupedTradingMetrics(key: string, metrics: TradingMetrics)

  // ----- sums and filters -----

  function Net(trades: seq<AnalyticsTrade>): int
  {
    if trades == [] then 0 else Net(trades[..|trades| - 1]) + trades[|trades| - 1].pnl
  }

  function Where(trades: seq<AnalyticsTrade>, p: AnalyticsTrade -> bool): seq<AnalyticsTrade>
  {
    if trades == [] then []
    else if p(trades[|trades| - 1]) then Where(trades[..|trades| - 1], p) + [trades[|trades| - 1]]
    else Where(trades[..|trades| - 1], p)
  }

  predicate Won(t: AnalyticsTrade)
  {
    t.pnl > 0
  }

  predicate Lost(t: AnalyticsTrade)
  {
    t.pnl < 0
  }

  predicate Even(t: AnalyticsTrade)
  {
    t.pnl == 0
  }

  function Rate(part: int, whole: nat): real
  {
    if whole == 0 then 0.0 else part as real / whole as real
  }

  function ProfitFactor(grossProfit: int, grossLoss: int): real
  {
    var loss := if grossLoss < 0 then -grossLoss else grossLoss;
    if loss == 0 then (if grossProfit > 0 then grossProfit as real else 0.0)
    else grossProfit as real / loss as real
  }

  function Expectancy(winRate: real, averageWin: real, lossRate: real, averageLoss: real): real
  {
    winRate * averageWin - lossRate * Abs(averageLoss)
  }

  // ----- dates -----

  function TradeDate(t: AnalyticsTrade): int
  {
    if t.closedAt.Some? then t.closedAt.value else t.openedAt
  }

  predicate Earlier(a: AnalyticsTrade, b: AnalyticsTrade)
  {
    TradeDate(a) < TradeDate(b)
  }

  function Pnls(trades: seq<AnalyticsTrade>): (ps: seq<int>)
    ensures |ps| == |trades|
    ensures forall i :: 0 <= i < |ps| ==> ps[i] == trades[i].pnl
  {
    seq(|trades|, i requires 0 <= i < |trades| => trades[i].pnl)
  }

  // ----- the figures -----

  function Figures(trades: seq<AnalyticsTrade>, drawdown: int): TradingMetrics
  {
    var total := |trades|;
    var winning, losing := Where(trades, Won), Where(trades, Lost);
    var grossProfit, grossLoss := Net(winning), Net(losing);
    var winRate, lossRate := Rate(|winning|, total), Rate(|losing|, total);
    var averageWin, averageLoss := Rate(grossProfit, |winning|), Rate(grossLoss, |losing|);
    TradingMetrics(total, |winning|, |losing|, |Where(trades, Even)|,
                   winRate, lossRate, ProfitFactor(grossProfit, grossLoss),
                   grossProfit, grossLoss, Net(trades), averageWin, averageLoss,
                   Expectancy(winRate, averageWin, lossRate, averageLoss), drawdown)
  }

  /** The drawdown is that of the trades in date order, ties as listed. */
  predicate IsMetrics(trades: seq<AnalyticsTrade>, m: TradingMetrics)
  {
    && m == Figures(trades, m.maxDrawdown)
    && IsLargestFall(Pnls(SortBy(trades, Earlier)), m.maxDrawdown)
  }

  method Calculate(trades: seq<AnalyticsTrade>) returns (m: TradingMetrics)
    ensures IsMetrics(trades, m)
  {
    hide IsLargestFall, SortBy, Figures;
    var drawdown := MaxDrawdown(Pnls(SortBy(trades, Earlier)));
    m := Figures(trades, drawdown);
    FiguresDrawdown(trades, drawdown);
  }

  lemma FiguresDrawdown(trades: seq<AnalyticsTrade>, drawdown: int)
    ensures Figures(trades, drawdown).maxDrawdown == drawdown
  {
  }

  method EquityCurve(trades: seq<AnalyticsTrade>, initialBalance: int) returns (balances: seq<int>)
    ensures |balances| == |trades|
    ensures forall k :: 0 <= k < |trades| ==>
              balances[k] == initialBalance + EquityAt(Pnls(SortBy(trades, Earlier)), k + 1)
    ensures trades != [] ==> balances[|trades| - 1] == initialBalance + Net(trades)
  {
    hide EquityAt, SortBy;
    var sorted := SortBy(trades, Earlier);
    var balance := initialBalance;
    balances := [];
    CurveStarts(Pnls(sorted));
    for k := 0 to |sorted|
      invariant |balances| == k
      invariant balance == initialBalance + EquityAt(Pnls(sorted), k)
      invariant forall i :: 0 <= i < k ==> balances[i] == initialBalance + EquityAt(Pnls(sorted), i + 1)
    {
      EquityStep(Pnls(sorted), k);
      balance := balance + sorted[k].pnl;
      balances := balances + [balance];
    }
    EquityIsNet(sorted, |sorted|);
    SortKeepsNet(trades);
    assert sorted[..|sorted|] == sorted;
  }

  lemma {:induction false} EquityIsNet(trades: seq<AnalyticsTrade>, k: nat)
    requires k <= |trades|
    ensures EquityAt(Pnls(trades), k) == Net(trades[..k])
  {
    hide EquityAt;
    if k == 0 {
      CurveStarts(Pnls(trades));
    } else {
      EquityIsNet(trades, k - 1);
      EquityStep(Pnls(trades), k - 1);
      assert trades[..k][..k - 1] == trades[..k - 1];
    }
  }

  lemma NetSnoc(trades: seq<AnalyticsTrade>, t: AnalyticsTrade)
    ensures Net(trades + [t]) == Net(trades) + t.pnl
  {
    assert (trades + [t])[..|trades|] == trades;
  }

  lemma {:induction false} InsertKeepsNet(t: AnalyticsTrade, ys: seq<AnalyticsTrade>)
    ensures Net(InsertBy(t, ys, Earlier)) == Net(ys) + t.pnl
  {
    hide Net;
    var n := |ys| - 1;
    if ys == [] || !Earlier(t, ys[n]) {
      NetSnoc(ys, t);
    } else {
      InsertKeepsNet(t, ys[..n]);
      NetSnoc(InsertBy(t, ys[..n], Earlier), ys[n]);
      NetSnoc(ys[..n], ys[n]);
      assert ys == ys[..n] + [ys[n]];
    }
  }

  lemma {:induction false} SortKeepsNet(trades: seq<AnalyticsTrade>)
    ensures Net(SortBy(trades, Earlier)) == Net(trades)
  {
    hide InsertBy;
    if trades != [] {
      var n := |trades| - 1;
      SortKeepsNet(trades[..n]);
      InsertKeepsNet(trades[n], SortBy(trades[..n], Earlier));
    }
  }

  // ----- how the figures hang together -----

  lemma WhereSnoc(trades: seq<AnalyticsTrade>, t: AnalyticsTrade, p: AnalyticsTrade -> bool)
    ensures Where(trades + [t], p) == if p(t) then Where(trades, p) + [t] else Where(trades, p)
  {
    assert (trades + [t])[..|trades|] == trades;
  }

  lemma NothingWhere(p: AnalyticsTrade -> bool)
    ensures Where([], p) == [] && Net([]) == 0
  {
  }

  lemma {:induction false} Outcomes(trades: seq<AnalyticsTrade>)
    ensures |Where(trades, Won)| + |Where(trades, Lost)| + |Where(trades, Even)| == |trades|
    ensures Net(Where(trades, Won)) + Net(Where(trades, Lost)) == Net(trades)
    ensures Net(Where(trades, Won)) >= |Where(trades, Won)|
    ensures Net(Where(trades, Lost)) <= -|Where(trades, Lost)|
  {
    hide Net, Where;
    if trades == [] {
      NothingWhere(Won);
      NothingWhere(Lost);
      NothingWhere(Even);
    } else {
      var before, t := trades[..|trades| - 1], trades[|trades| - 1];
      Outcomes(before);
      assert trades == before + [t];
      WhereSnoc(before, t, Won);
      WhereSnoc(before, t, Lost);
      WhereSnoc(before, t, Even);
      NetSnoc(before, t);
      NetSnoc(Where(before, Won), t);
      NetSnoc(Where(before, Lost), t);
    }
  }

  lemma RateTimes(part: int, whole: nat)
    requires whole > 0
    ensures Rate(part, whole) * whole as real == part as real
  {
  }

  lemma ScaledRates(count: nat, total: nat, sum: int)
    requires 0 < total && count <= total && (count == 0 ==> sum == 0)
    ensures Rate(count, total) * Rate(sum, count) * total as real == sum as real
  {
    hide Rate;
    var r, s := Rate(count, total), Rate(sum, count);
    RateTimes(count, total);
    if count > 0 {
      RateTimes(sum, count);
      assert r * s * total as real == r * total as real * s;
    } else {
      NoRate(total);
      assert r == 0.0;
    }
  }

  lemma NoRate(total: nat)
    ensures Rate(0, total) == 0.0
  {
  }

  lemma MeanFromRates(total: nat, wins: nat, losses: nat, grossProfit: int, grossLoss: int)
    requires 0 < total && wins <= total && losses <= total && grossLoss <= 0
    requires (wins == 0 ==> grossProfit == 0) && (losses == 0 ==> grossLoss == 0)
    ensures Expectancy(Rate(wins, total), Rate(grossProfit, wins), Rate(losses, total), Rate(grossLoss, losses))
            * total as real == (grossProfit + grossLoss) as real
  {
    ScaledRates(wins, total, grossProfit);
    ScaledRates(losses, total, grossLoss);
    LossIsNegative(grossLoss, losses);
    hide Rate;
    var a, b := Rate(wins, total) * Rate(grossProfit, wins), Rate(losses, total) * Rate(grossLoss, losses);
    var n := total as real;
    assert Rate(losses, total) * Abs(Rate(grossLoss, losses)) == -b;
    assert (a + b) * n == a * n + b * n;
  }

  /** The trades that meet a condition are exactly those, as often as listed. */
  lemma {:induction false} WhereExactly(trades: seq<AnalyticsTrade>, p: AnalyticsTrade -> bool, t: AnalyticsTrade)
    ensures multiset(Where(trades, p))[t] == if p(t) then multiset(trades)[t] else 0
  {
    if trades != [] {
      var n := |trades| - 1;
      WhereExactly(trades[..n], p, t);
      assert trades == trades[..n] + [trades[n]];
    }
  }

  function Gains(): AnalyticsTrade -> bool
  {
    (t: AnalyticsTrade) => t.pnl > 0
  }

  function Loses(): AnalyticsTrade -> bool
  {
    (t: AnalyticsTrade) => t.pnl < 0
  }

  lemma {:induction false} WhereCounts(trades: seq<AnalyticsTrade>)
    ensures |Where(trades, Won)| == |Indices(trades, Gains())| && |Where(trades, Lost)| == |Indices(trades, Loses())|
  {
    hide Indices;
    if trades == [] {
      NoIndices(Gains());
      NoIndices(Loses());
    } else {
      WhereCounts(trades[..|trades| - 1]);
      IndicesInit(trades, Gains());
      IndicesInit(trades, Loses());
    }
  }

  /** `rate` times `whole` is `part`; without a whole the rate is 0. */
  predicate IsRate(rate: real, part: int, whole: nat)
  {
    if whole == 0 then rate == 0.0 else rate * whole as real == part as real
  }

  /** `factor` times the losses is the profit; without losses it is the profit
      itself. */
  predicate IsFactor(factor: real, grossProfit: int, grossLoss: int)
  {
    if grossLoss == 0 then factor == grossProfit as real else factor * AbsInt(grossLoss) as real == grossProfit as real
  }

  /** The figures as a reader checks them: trades are counted by sign, rates and averages multiply back, and
      so does the profit factor. */
  lemma FiguresMultiplyBack(trades: seq<AnalyticsTrade>, m: TradingMetrics)
    requires IsMetrics(trades, m)
    ensures m.totalTrades == |trades| && m.netPnL == m.grossProfit + m.grossLoss
    ensures m.winningTrades == |Indices(trades, Gains())| && m.losingTrades == |Indices(trades, Loses())|
    ensures IsRate(m.winRate, m.winningTrades, m.totalTrades) && IsRate(m.lossRate, m.losingTrades, m.totalTrades)
    ensures IsRate(m.averageWin, m.grossProfit, m.winningTrades)
    ensures IsRate(m.averageLoss, m.grossLoss, m.losingTrades)
    ensures IsFactor(m.profitFactor, m.grossProfit, m.grossLoss)
  {
    Outcomes(trades);
    WhereCounts(trades);
    NothingWhere(Won);
    RateIs(m.winningTrades, m.totalTrades);
    RateIs(m.losingTrades, m.totalTrades);
    RateIs(m.grossProfit, m.winningTrades);
    RateIs(m.grossLoss, m.losingTrades);
    FactorIs(m.grossProfit, m.grossLoss);
    hide Where, Net, Indices, IsLargestFall, Rate, IsRate, IsFactor, Expectancy, SortBy, ProfitFactor;
  }

  lemma RateIs(part: int, whole: nat)
    ensures IsRate(Rate(part, whole), part, whole)
  {
  }

  lemma FactorIs(grossProfit: int, grossLoss: int)
    requires grossProfit >= 0 >= grossLoss
    ensures IsFactor(ProfitFactor(grossProfit, grossLoss), grossProfit, grossLoss)
  {
  }

  /** What the trades are sorted by: the closing time, or the opening time of one
      without. */
  lemma SortedByDate(trades: seq<AnalyticsTrade>, i: nat, j: nat)
    requires i < j < |trades|
    ensures var sorted := SortBy(trades, Earlier);
            var a, b := sorted[i], sorted[j];
            (if a.closedAt.Some? then a.closedAt.value else a.openedAt)
            <= if b.closedAt.Some? then b.closedAt.value else b.openedAt
    ensures multiset(SortBy(trades, Earlier)) == multiset(trades)
  {
    SortOrders(trades, Earlier);
    SortKeeps(trades, Earlier);
    hide SortBy;
    assert !Earlier(SortBy(trades, Earlier)[j], SortBy(trades, Earlier)[i]);
  }

  lemma LossIsNegative(sum: int, count: nat)
    requires sum <= 0
    ensures Rate(sum, count) <= 0.0
  {
    if count > 0 {
      RateTimes(sum, count);
    }
  }

  /** Win rate times average win less loss rate times average loss is just the
      mean profit, so expectancy times the number of trades is the net profit. */
  lemma ExpectancyIsMean(trades: seq<AnalyticsTrade>, m: TradingMetrics)
    requires IsMetrics(trades, m)
    ensures m.winningTrades + m.losingTrades + m.breakevenTrades == m.totalTrades == |trades|
    ensures m.netPnL == m.grossProfit + m.grossLoss
    ensures m.grossProfit >= 0 >= m.grossLoss
    ensures m.expectancy * m.totalTrades as real == m.netPnL as real
  {
    hide Where, Net, IsLargestFall, Rate, Expectancy, SortBy;
    Outcomes(trades);
    if trades == [] {
      NothingWhere(Won);
      NothingWhere(Lost);
    } else {
      NothingWhere(Won);
      MeanFromRates(|trades|, m.winningTrades, m.losingTrades, m.grossProfit, m.grossLoss);
    }
  }
}
