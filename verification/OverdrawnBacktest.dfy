/** A backtest can end below zero: with the whole balance at risk on each of two
    open positions, one candle stops out both.  Preceded by a win, such a run
    has a drawdown that is not the largest fall over ordered pairs. */
module OverdrawnBacktest {
  import opened Market
  import opened Rounding
  import opened Sequences
  import opened BacktestSpec
  import opened BacktestEngine
  import opened BacktestMetrics

  function Bar(timestamp: int, high: int, low: int): Candle
  {
    Candle(timestamp, 100 * ONE, high * ONE, low * ONE, 100 * ONE)
  }

  /** Buys at 100, stop 90 and target 110, on candles 0, 2 and 3: the first
      reaches its target at candle 2, the other two their stop at candle 5. */
  function Example(): Input
  {
    Input(100 * ONE, Some(1.0),
          [Bar(0, 105, 95), Bar(1, 105, 95), Bar(2, 115, 95), Bar(3, 105, 95), Bar(4, 105, 95), Bar(5, 105, 80)],
          cs => if |cs| == 1 || |cs| == 3 || |cs| == 4 then
                  Some(StrategyResult(SignalBuy, Some(90 * ONE), Some(110 * ONE), "", true))
                else None)
  }

  lemma AcceptedSignals()
    ensures forall i: nat :: Accepted(Example(), i) <==> i == 0 || i == 2 || i == 3
  {
    var inp := Example();
    forall i: nat ensures Accepted(inp, i) <==> i == 0 || i == 2 || i == 3 {
      if i < 6 {
        assert |inp.candles[..i + 1]| == i + 1;
      }
    }
  }

  lemma ExampleTrade(i: nat)
    requires Accepted(Example(), i)
    ensures TradeOfSize(Example(), i, 0) == Trade(Buy, 100 * ONE, 90 * ONE, 110 * ONE, 0, i + 1)
  {
    AcceptedSignals();
  }

  lemma Exits()
    ensures Accepted(Example(), 0) && ExitIndex(Example(), 0) == 2 && ExitPrice(Example(), 0) == 110 * ONE
    ensures Accepted(Example(), 2) && ExitIndex(Example(), 2) == 5 && ExitPrice(Example(), 2) == 90 * ONE
    ensures Accepted(Example(), 3) && ExitIndex(Example(), 3) == 5 && ExitPrice(Example(), 3) == 90 * ONE
  {
    AcceptedSignals();
    ExampleTrade(0);
    ExampleTrade(2);
    ExampleTrade(3);
    var inp := Example();
    hide Accepted, TradeOfSize, ExitIndex;
    assert Touches(inp, 0, 2);
    assert !Touches(inp, 2, 4) && Touches(inp, 2, 5);
    assert Touches(inp, 3, 5);
  }

  lemma SizeOf(balance: int, size: int)
    requires balance == 10 * size
    ensures PositionSize(balance, 1.0, 10 * ONE) == size
  {
    assert balance as real * 1.0 / (10 * ONE) as real * ONE as real == size as real;
    RoundOnGrid(size);
  }

  lemma PnlOf(t: Trade, exitPrice: int, pnl: int)
    requires t.direction.Buy? && (exitPrice - t.entryPrice) * t.positionSize == pnl * ONE
    ensures CalculatePnl(t, exitPrice) == pnl
  {
    assert Proceeds(exitPrice - t.entryPrice, t.positionSize) == pnl as real;
    RoundOnGrid(pnl);
  }

  /** The profit of a trade sized at a known balance. */
  lemma SizedPnl(inp: Input, i: nat, balance: int, size: int, pnl: int)
    requires Accepted(inp, i) && RiskPercent(inp) == 1.0
    requires TradeOfSize(inp, i, 0) == Trade(Buy, 100 * ONE, 90 * ONE, 110 * ONE, 0, i + 1)
    requires BalanceAtSignal(inp, i) == balance == 10 * size
    requires (ExitPrice(inp, i) - 100 * ONE) * size == pnl * ONE
    ensures Pnl(inp, i) == pnl
  {
    hide Accepted, TradeOfSize, ExitPrice, PositionSize, CalculatePnl, BalanceAtSignal, RiskPercent;
    SizeOf(balance, size);
    assert AbsInt(100 * ONE - 90 * ONE) == 10 * ONE;
    PnlOf(SpecTrade(inp, i), ExitPrice(inp, i), pnl);
  }

  lemma BalanceUnfolds(inp: Input, i: nat)
    ensures BalanceAtSignal(inp, i) == inp.initialBalance + Realised(inp, i + 1, i)
  {
    hide Realised;
  }

  lemma FirstPnl()
    ensures Accepted(Example(), 0) && Pnl(Example(), 0) == 100 * ONE
  {
    var inp := Example();
    ExampleTrade(0);
    Exits();
    BalanceUnfolds(inp, 0);
    assert inp.initialBalance == 100 * ONE && RiskPercent(inp) == 1.0;
    hide *;
    RealisedUnfolds(inp, 1, 0);
    SizedPnl(inp, 0, 100 * ONE, 10 * ONE, 100 * ONE);
  }

  lemma RealisedBefore(j: nat, m: nat)
    requires (j == 3 && m == 2) || (j == 4 && m == 3)
    ensures Realised(Example(), j, m) == 100 * ONE
  {
    var inp := Example();
    AcceptedSignals();
    Exits();
    FirstPnl();
    hide *;
    RealisedUnfolds(inp, j, 3);
    RealisedUnfolds(inp, j, 2);
    RealisedUnfolds(inp, j, 1);
    RealisedUnfolds(inp, j, 0);
  }

  lemma ExampleTerms()
    ensures Example().initialBalance == 100 * ONE && RiskPercent(Example()) == 1.0
    ensures (90 * ONE - 100 * ONE) * (20 * ONE) == -200 * ONE * ONE
  {
  }

  lemma StoppedPnl(i: nat)
    requires i == 2 || i == 3
    ensures Accepted(Example(), i) && Pnl(Example(), i) == -200 * ONE
  {
    hide *;
    ExampleTerms();
    Exits();
    ExampleTrade(i);
    RealisedBefore(i + 1, i);
    BalanceUnfolds(Example(), i);
    SizedPnl(Example(), i, 200 * ONE, 20 * ONE, -200 * ONE);
  }

  lemma Leaving(e: nat, m: nat)
    requires m <= 6
    ensures LeavingAt(Example(), e, m)
            == if e == 2 && m > 0 then [0]
               else if e == 5 && m > 3 then [2, 3]
               else if e == 5 && m == 3 then [2]
               else []
  {
    var inp := Example();
    AcceptedSignals();
    Exits();
    hide *;
    LeavingUnfolds(inp, e, m);
    if m > 0 {
      Leaving(e, m - 1);
    }
  }

  lemma ReverseShort(a: nat, b: nat)
    ensures Reverse<nat>([]) == [] && Reverse([a]) == [a] && Reverse([a, b]) == [b, a]
  {
    ReverseElements([a]);
    ReverseElements([a, b]);
  }

  lemma ClosedSteps(inp: Input, j: nat)
    ensures ClosedBefore(inp, j + 1) == ClosedBefore(inp, j) + Reverse(LeavingAt(inp, j, j))
    ensures ClosedBefore(inp, 0) == []
  {
    hide LeavingAt, Reverse;
  }

  lemma LeavingReversed(e: nat)
    requires e < 6
    ensures Reverse(LeavingAt(Example(), e, e)) == if e == 2 then [0] else if e == 5 then [3, 2] else []
  {
    hide *;
    Leaving(e, e);
    ReverseShort(0, 0);
    ReverseShort(2, 3);
  }

  lemma {:induction false} Closed(j: nat)
    requires j <= 6
    ensures ClosedBefore(Example(), j) == if j < 3 then [] else if j < 6 then [0] else [0, 3, 2]
  {
    hide *;
    if j == 0 {
      ClosedSteps(Example(), 0);
    } else {
      Closed(j - 1);
      LeavingReversed(j - 1);
      ClosedSteps(Example(), j - 1);
    }
  }

  lemma Order()
    ensures ReportOrder(Example()) == [0, 3, 2]
  {
    var inp := Example();
    assert |inp.candles| == 6;
    Closed(6);
    Leaving(6, 6);
    hide ClosedBefore, LeavingAt, Example;
  }

  lemma ReportPnls(inp: Input)
    requires Accepted(inp, 0) && Accepted(inp, 2) && Accepted(inp, 3)
    ensures AllAccepted(inp, [0, 3, 2])
    ensures var cs := ClosedOf(inp, [0, 3, 2]);
            && |cs| == 3
            && cs[0].pnl == Pnl(inp, 0) && cs[1].pnl == Pnl(inp, 3) && cs[2].pnl == Pnl(inp, 2)
  {
    PnlOfClosed(inp, 0);
    PnlOfClosed(inp, 2);
    PnlOfClosed(inp, 3);
    hide Accepted, SpecClosed, Pnl, ClosedOf;
  }

  lemma HistoryOf(inp: Input, ks: seq<nat>)
    requires ks == [0, 3, 2] && Accepted(inp, 0) && Accepted(inp, 2) && Accepted(inp, 3) && AllAccepted(inp, ks)
    requires Pnl(inp, 0) == 100 * ONE && Pnl(inp, 2) == Pnl(inp, 3) == -200 * ONE
    ensures RunningBalances(100 * ONE, ClosedOf(inp, ks)) == [100 * ONE, 200 * ONE, 0, -200 * ONE]
  {
    hide *;
    ReportPnls(inp);
    ThreeBalances(100 * ONE, ClosedOf(inp, ks));
  }

  lemma History()
    ensures RunningBalances(100 * ONE, ClosedOf(Example(), ReportOrder(Example())))
            == [100 * ONE, 200 * ONE, 0, -200 * ONE]
  {
    hide *;
    Order();
    FirstPnl();
    StoppedPnl(2);
    StoppedPnl(3);
    HistoryOf(Example(), ReportOrder(Example()));
  }

  lemma ThreeBalances(initial: int, cs: seq<ClosedTrade>)
    requires |cs| == 3
    ensures RunningBalances(initial, cs)
            == [initial, initial + cs[0].pnl, initial + cs[0].pnl + cs[1].pnl,
                initial + cs[0].pnl + cs[1].pnl + cs[2].pnl]
  {
    assert cs[..2][..1] == cs[..1] && cs[..1][..0] == [];
    assert RunningBalances(initial, []) == [initial];
    assert RunningBalances(initial, cs[..1]) == [initial, initial + cs[0].pnl];
    assert RunningBalances(initial, cs[..2]) == [initial, initial + cs[0].pnl, initial + cs[0].pnl + cs[1].pnl];
  }

  lemma TwoHeights(h: seq<int>, r: real)
    requires h == [100 * ONE, 200 * ONE, 0, -200 * ONE] && IsPeakDrawdown(h, r)
    ensures Overdrawn(h) && !IsPairDrawdown(h, r)
  {
    assert h[0] > 0 && h[3] < 0;
    PairsExactlyWhen(h, r);
    hide IsPeakDrawdown, IsPairDrawdown, Deepest;
    forall k, v | 0 <= k < 4 && v > 0 && h[k] < 0 ensures !OneHeight(h, k, v) {
      assert h[0] != h[1];
    }
  }

  /** The run's balances are 100, 200, 0 and -200: it ends below zero, and its
      drawdown is not the pairwise one. */
  lemma PairsFailInBacktest(r: real)
    requires IsPeakDrawdown([100 * ONE, 200 * ONE, 0, -200 * ONE], r)
    ensures var h := [100 * ONE, 200 * ONE, 0, -200 * ONE];
            && RunningBalances(Example().initialBalance, ClosedOf(Example(), ReportOrder(Example()))) == h
            && Overdrawn(h) && !IsPairDrawdown(h, r)
  {
    hide *;
    ExampleTerms();
    History();
    TwoHeights([100 * ONE, 200 * ONE, 0, -200 * ONE], r);
  }
}
