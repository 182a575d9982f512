/** The second report over closed paper trades.  It counts by stored label where
    the analytics count by sign, and never sorts; on the rows paper trading
    writes, read back in closing order, the two agree. */
module PerformanceSummary {
  import opened Market
  import opened Rounding
  import opened Sequences
  import opened Drawdown
  import opened Analytics

  datatype PaperRow = PaperRow(pnl: Option<int>, result: Option<TradeResult>, closedAt: int)

  datatype Summary = Summary(
    closedTrades: nat,
    winningTrades: nat,
    losingTrades: nat,
    winRate: real,
    netPnl: int,
    profitFactor: real,
    maxDrawdown: int,
    averageWin: real,
    averageLoss: real,
    expectancy: real)

  function PnlOrZero(row: PaperRow): int
  {
    if row.pnl.Some? then row.pnl.value else 0
  }

  /** Profits of the rows labelled `result`. */
  function Labelled(rows: seq<PaperRow>, result: TradeResult): seq<int>
  {
    if rows == [] then []
    else if rows[|rows| - 1].result == Some(result) then
      Labelled(rows[..|rows| - 1], result) + [PnlOrZero(rows[|rows| - 1])]
    else Labelled(rows[..|rows| - 1], result)
  }

  function AllPnls(rows: seq<PaperRow>): (ps: seq<int>)
    ensures |ps| == |rows|
    ensures forall i :: 0 <= i < |ps| ==> ps[i] == PnlOrZero(rows[i])
  {
    seq(|rows|, i requires 0 <= i < |rows| => PnlOrZero(rows[i]))
  }

  function PercentExpectancy(winRate: real, averageWin: real, lossRate: real, averageLoss: real): real
  {
    winRate / 100.0 * averageWin + lossRate * averageLoss
  }

  function SummaryOf(rows: seq<PaperRow>, drawdown: int): Summary
  {
    var winning, losing := Labelled(rows, Win), Labelled(rows, Loss);
    var grossProfit, grossLoss := Equity(winning), Equity(losing);
    var averageWin, averageLoss := Rate(grossProfit, |winning|), Rate(grossLoss, |losing|);
    var winRate, lossRate := Rate(|winning|, |rows|) * 100.0, Rate(|losing|, |rows|);
    Summary(|rows|, |winning|, |losing|, winRate, Equity(AllPnls(rows)), ProfitFactor(grossProfit, grossLoss),
            drawdown, averageWin, averageLoss, PercentExpectancy(winRate, averageWin, lossRate, averageLoss))
  }

  predicate IsSummary(rows: seq<PaperRow>, s: Summary)
  {
    s == SummaryOf(rows, s.maxDrawdown) && IsLargestFall(AllPnls(rows), s.maxDrawdown)
  }

  /** `rows` are the closed trades in ascending closing order. */
  method GetSummary(rows: seq<PaperRow>) returns (s: Summary)
    ensures IsSummary(rows, s)
  {
    hide IsLargestFall;
    var drawdown := MaxDrawdown(AllPnls(rows));
    s := SummaryOf(rows, drawdown);
  }

  function Carries(result: TradeResult): PaperRow -> bool
  {
    (row: PaperRow) => row.result.Some? && row.result.value == result
  }

  /** A label counts the rows that carry it, no matter what they earned. */
  lemma {:induction false} LabelledExactly(rows: seq<PaperRow>, result: TradeResult)
    ensures |Labelled(rows, result)| == |Indices(rows, Carries(result))|
  {
    hide Indices;
    if rows == [] {
      NoIndices(Carries(result));
    } else {
      LabelledExactly(rows[..|rows| - 1], result);
      IndicesInit(rows, Carries(result));
    }
  }

  /** The figures as a reader checks them, whatever the labels: rates and averages
      multiply back, the net profit takes every row, and the expectancy times the
      rows is what the labelled ones earned. */
  lemma SummaryMultipliesBack(rows: seq<PaperRow>, s: Summary)
    requires IsSummary(rows, s)
    ensures s.closedTrades == |rows| && s.netPnl == Equity(AllPnls(rows))
    ensures s.winningTrades == |Indices(rows, Carries(Win))| && s.losingTrades == |Indices(rows, Carries(Loss))|
    ensures IsPercent(s.winRate, s.winningTrades, s.closedTrades)
    ensures IsRate(s.averageWin, Equity(Labelled(rows, Win)), s.winningTrades)
    ensures IsRate(s.averageLoss, Equity(Labelled(rows, Loss)), s.losingTrades)
    ensures IsFactorOf(s.profitFactor, Equity(Labelled(rows, Win)), Equity(Labelled(rows, Loss)))
    ensures IsRate(s.expectancy, Equity(Labelled(rows, Win)) + Equity(Labelled(rows, Loss)), s.closedTrades)
  {
    hide *;
    var wins, losses := Labelled(rows, Win), Labelled(rows, Loss);
    LabelledExactly(rows, Win);
    LabelledExactly(rows, Loss);
    LabelledAtMost(rows, Win);
    LabelledAtMost(rows, Loss);
    NothingEarned(wins);
    NothingEarned(losses);
    PercentIs(|wins|, |rows|);
    RateIs(Equity(wins), |wins|);
    RateIs(Equity(losses), |losses|);
    FactorIsOf(Equity(wins), Equity(losses));
    LabelledMean(|wins|, |losses|, |rows|, Equity(wins), Equity(losses));
    SummaryUnfolds(rows, s);
  }

  lemma SummaryUnfolds(rows: seq<PaperRow>, s: Summary)
    requires IsSummary(rows, s)
    ensures var wins, losses := Labelled(rows, Win), Labelled(rows, Loss);
            && s.closedTrades == |rows| && s.netPnl == Equity(AllPnls(rows))
            && s.winningTrades == |wins| && s.losingTrades == |losses|
            && s.winRate == ToPercent(Rate(|wins|, |rows|)) && s.averageWin == Rate(Equity(wins), |wins|)
            && s.averageLoss == Rate(Equity(losses), |losses|)
            && s.profitFactor == ProfitFactor(Equity(wins), Equity(losses))
            && s.expectancy == PercentExpectancy(s.winRate, s.averageWin, Rate(|losses|, |rows|), s.averageLoss)
  {
    hide Labelled, Equity, IsLargestFall, Rate, ProfitFactor, PercentExpectancy;
  }

  function ToPercent(rate: real): real
  {
    rate * 100.0
  }

  /** A percentage, over 100, times `whole` is `part`. */
  predicate IsPercent(percent: real, part: int, whole: nat)
  {
    IsRate(percent / 100.0, part, whole)
  }

  lemma PercentIs(part: int, whole: nat)
    ensures IsPercent(ToPercent(Rate(part, whole)), part, whole)
  {
    RateIs(part, whole);
    hide Rate, IsRate;
    assert Rate(part, whole) * 100.0 / 100.0 == Rate(part, whole);
  }

  /** The profit factor: profit over losses; without losses the profit if there
      is one, else 0. */
  predicate IsFactorOf(factor: real, grossProfit: int, grossLoss: int)
  {
    if grossLoss != 0 then factor * AbsInt(grossLoss) as real == grossProfit as real
    else if grossProfit > 0 then factor == grossProfit as real
    else factor == 0.0
  }

  lemma FactorIsOf(grossProfit: int, grossLoss: int)
    ensures IsFactorOf(ProfitFactor(grossProfit, grossLoss), grossProfit, grossLoss)
  {
  }

  lemma {:induction false} LabelledAtMost(rows: seq<PaperRow>, result: TradeResult)
    ensures |Labelled(rows, result)| <= |rows|
  {
    if rows != [] {
      LabelledAtMost(rows[..|rows| - 1], result);
    }
  }

  lemma NothingEarned(ps: seq<int>)
    ensures |ps| == 0 ==> Equity(ps) == 0
  {
  }

  lemma LabelledMean(wins: nat, losses: nat, total: nat, grossProfit: int, grossLoss: int)
    requires wins <= total && losses <= total
    requires (wins == 0 ==> grossProfit == 0) && (losses == 0 ==> grossLoss == 0)
    ensures IsRate(PercentExpectancy(ToPercent(Rate(wins, total)), Rate(grossProfit, wins), Rate(losses, total),
                                     Rate(grossLoss, losses)),
                   grossProfit + grossLoss, total)
  {
    if total == 0 {
      NoRate(0);
    } else {
      ScaledRates(wins, total, grossProfit);
      ScaledRates(losses, total, grossLoss);
      hide Rate;
      assert Rate(wins, total) * 100.0 / 100.0 == Rate(wins, total);
      var a, b := Rate(wins, total) * Rate(grossProfit, wins), Rate(losses, total) * Rate(grossLoss, losses);
      assert (a + b) * total as real == a * total as real + b * total as real;
    }
  }

  // ----- agreement with the analytics -----

  /** A row as paper trading closes it: its label is the sign of its profit. */
  predicate LabelledBySign(row: PaperRow)
  {
    row.pnl.Some? && row.result == Some(ResultOfPnl(row.pnl.value))
  }

  predicate SameTrade(row: PaperRow, t: AnalyticsTrade)
  {
    row.pnl == Some(t.pnl) && t.closedAt == Some(row.closedAt)
  }

  predicate SameTrades(rows: seq<PaperRow>, trades: seq<AnalyticsTrade>)
  {
    && |rows| == |trades|
    && forall i :: 0 <= i < |rows| ==> LabelledBySign(rows[i]) && SameTrade(rows[i], trades[i])
  }

  lemma EquitySnoc(ps: seq<int>, p: int)
    ensures Equity(ps + [p]) == Equity(ps) + p
  {
    assert (ps + [p])[..|ps|] == ps;
  }

  /** One more row adds its profit to those of its label, 0 when it has none. */
  lemma LabelledSnoc(rows: seq<PaperRow>, row: PaperRow, result: TradeResult)
    ensures var pnl := if row.pnl.Some? then row.pnl.value else 0;
            && Labelled(rows + [row], result)
               == (if row.result == Some(result) then Labelled(rows, result) + [pnl] else Labelled(rows, result))
            && AllPnls(rows + [row]) == AllPnls(rows) + [pnl]
  {
    assert (rows + [row])[..|rows|] == rows;
  }

  lemma NothingLabelled(result: TradeResult)
    ensures Labelled([], result) == [] && Equity([]) == 0
  {
  }

  lemma {:induction false} LabelsAreSigns(rows: seq<PaperRow>, trades: seq<AnalyticsTrade>)
    requires SameTrades(rows, trades)
    ensures |Labelled(rows, Win)| == |Where(trades, Won)| && Equity(Labelled(rows, Win)) == Net(Where(trades, Won))
    ensures |Labelled(rows, Loss)| == |Where(trades, Lost)| && Equity(Labelled(rows, Loss)) == Net(Where(trades, Lost))
    ensures Equity(AllPnls(rows)) == Net(trades)
  {
    hide Equity, Net, Where, Labelled;
    NothingWhere(Won);
    NothingWhere(Lost);
    NothingLabelled(Win);
    NothingLabelled(Loss);
    if rows != [] {
      var n := |rows| - 1;
      var before, was, row, t := rows[..n], trades[..n], rows[n], trades[n];
      LabelsAreSigns(before, was);
      assert rows == before + [row] && trades == was + [t];
      assert LabelledBySign(row) && SameTrade(row, t);
      LabelledSnoc(before, row, Win);
      LabelledSnoc(before, row, Loss);
      WhereSnoc(was, t, Won);
      WhereSnoc(was, t, Lost);
      EquitySnoc(Labelled(before, Win), t.pnl);
      EquitySnoc(Labelled(before, Loss), t.pnl);
      NetSnoc(Where(was, Won), t);
      NetSnoc(Where(was, Lost), t);
      NetSnoc(was, t);
      assert AllPnls(rows) == AllPnls(before) + [t.pnl];
      EquitySnoc(AllPnls(before), t.pnl);
    }
  }

  /** Rows in closing order need no sorting. */
  lemma ClosingOrder(rows: seq<PaperRow>, trades: seq<AnalyticsTrade>)
    requires SameTrades(rows, trades)
    requires forall i, j :: 0 <= i < j < |rows| ==> rows[i].closedAt <= rows[j].closedAt
    ensures Pnls(SortBy(trades, Earlier)) == AllPnls(rows)
  {
    forall i, j | 0 <= i < j < |trades| ensures !Earlier(trades[j], trades[i]) {
      assert SameTrade(rows[i], trades[i]) && SameTrade(rows[j], trades[j]);
    }
    SortOrdered(trades, Earlier);
    hide SortBy;
    forall i | 0 <= i < |rows| ensures AllPnls(rows)[i] == Pnls(trades)[i] {
      assert SameTrade(rows[i], trades[i]);
    }
  }

  lemma SameRates(wins: nat, losses: nat, total: nat, grossProfit: int, grossLoss: int)
    requires grossLoss <= 0
    ensures PercentExpectancy(Rate(wins, total) * 100.0, Rate(grossProfit, wins), Rate(losses, total),
                              Rate(grossLoss, losses))
            == Expectancy(Rate(wins, total), Rate(grossProfit, wins), Rate(losses, total), Rate(grossLoss, losses))
  {
    LossIsNegative(grossLoss, losses);
    hide Rate;
    assert Rate(wins, total) * 100.0 / 100.0 == Rate(wins, total);
    assert Abs(Rate(grossLoss, losses)) == -Rate(grossLoss, losses);
    assert Rate(losses, total) * -Rate(grossLoss, losses) == -(Rate(losses, total) * Rate(grossLoss, losses));
  }

  /** Before display rounding the two reports show the same figures, the win
      rate once as a percentage and once as a fraction. */
  lemma ReportsAgree(rows: seq<PaperRow>, trades: seq<AnalyticsTrade>, s: Summary, m: TradingMetrics)
    requires IsSummary(rows, s) && IsMetrics(trades, m) && SameTrades(rows, trades)
    requires forall i, j :: 0 <= i < j < |rows| ==> rows[i].closedAt <= rows[j].closedAt
    ensures s.closedTrades == m.totalTrades && s.winningTrades == m.winningTrades && s.losingTrades == m.losingTrades
    ensures s.netPnl == m.netPnL && s.profitFactor == m.profitFactor && s.maxDrawdown == m.maxDrawdown
    ensures s.averageWin == m.averageWin && s.averageLoss == m.averageLoss
    ensures s.winRate == m.winRate * 100.0 && s.expectancy == m.expectancy
  {
    hide Labelled, Where, Equity, Net, IsLargestFall, SortBy, Rate, Expectancy, PercentExpectancy, ProfitFactor,
      SameTrades;
    LabelsAreSigns(rows, trades);
    Outcomes(trades);
    ClosingOrder(rows, trades);
    LargestFallUnique(AllPnls(rows), s.maxDrawdown, m.maxDrawdown);
    SameRates(m.winningTrades, m.losingTrades, m.totalTrades, m.grossProfit, m.grossLoss);
  }
}
