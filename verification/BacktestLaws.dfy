/** What the specified backtest guarantees, for every strategy and every candle
    sequence: each accepted signal is reported once, leaves at its own first
    touch, loses what it was sized to lose, and never depends on later candles. */
module BacktestLaws {
  import opened Market
  import opened Numbers
  import opened Rounding
  import opened Sequences
  import opened BacktestSpec
  import opened BacktestEngine

  // ----- every accepted signal is reported exactly once -----

  lemma {:induction false} LeavingOnce(inp: Input, e: nat, m: nat, k: nat)
    ensures multiset(LeavingAt(inp, e, m))[k]
            == if k < m && Accepted(inp, k) && ExitIndex(inp, k) == e then 1 else 0
  {
    hide *;
    LeavingUnfolds(inp, e, m);
    if m > 0 {
      LeavingOnce(inp, e, m - 1, k);
    }
  }

  lemma ClosedUnfolds(inp: Input, j: nat)
    ensures ClosedBefore(inp, j)
            == if j == 0 then [] else ClosedBefore(inp, j - 1) + Reverse(LeavingAt(inp, j - 1, j - 1))
  {
  }

  lemma {:induction false} ClosedOnce(inp: Input, j: nat, k: nat)
    ensures multiset(ClosedBefore(inp, j))[k]
            == if Accepted(inp, k) && ExitIndex(inp, k) < j then 1 else 0
  {
    hide *;
    ClosedUnfolds(inp, j);
    if j > 0 {
      ClosedOnce(inp, j - 1, k);
      LeavingOnce(inp, j - 1, j - 1, k);
      ReverseMultiset(LeavingAt(inp, j - 1, j - 1));
    }
  }

  lemma ReportedOnce(inp: Input, k: nat)
    ensures multiset(ReportOrder(inp))[k] == if Accepted(inp, k) then 1 else 0
  {
    var n := |inp.candles|;
    ClosedOnce(inp, n, k);
    LeavingOnce(inp, n, n, k);
    hide ClosedBefore, LeavingAt, ExitIndex;
  }

  lemma {:induction false} LeavingCount(inp: Input, m: nat)
    requires m <= |inp.candles|
    ensures AcceptedCount(inp, m) <= CreatedCount(inp, m)
  {
    if m > 0 {
      LeavingCount(inp, m - 1);
    }
  }

  ghost function AcceptedCount(inp: Input, m: nat): nat
  {
    if m == 0 then 0 else AcceptedCount(inp, m - 1) + if Accepted(inp, m - 1) then 1 else 0
  }

  ghost function AcceptedBelow(inp: Input, m: nat): (ks: seq<nat>)
    ensures |ks| == AcceptedCount(inp, m)
    ensures forall q :: 0 <= q < |ks| ==> ks[q] < m
  {
    if m == 0 then []
    else if Accepted(inp, m - 1) then AcceptedBelow(inp, m - 1) + [m - 1]
    else AcceptedBelow(inp, m - 1)
  }

  lemma {:induction false} AcceptedBelowOnce(inp: Input, m: nat, k: nat)
    ensures multiset(AcceptedBelow(inp, m))[k] == if k < m && Accepted(inp, k) then 1 else 0
  {
    hide Accepted;
    if m > 0 {
      AcceptedBelowOnce(inp, m - 1, k);
    }
  }

  /** The report has one trade for each accepted signal and none beside. */
  lemma ReportSize(inp: Input)
    ensures multiset(ReportOrder(inp)) == multiset(AcceptedBelow(inp, |inp.candles|))
    ensures |ReportOrder(inp)| == AcceptedCount(inp, |inp.candles|) <= CreatedCount(inp, |inp.candles|)
  {
    hide ReportOrder, AcceptedBelow;
    var n := |inp.candles|;
    var a, b := multiset(ReportOrder(inp)), multiset(AcceptedBelow(inp, n));
    forall k: nat ensures a[k] == b[k] {
      ReportedOnce(inp, k);
      AcceptedBelowOnce(inp, n, k);
    }
    hide Accepted, CreatedCount, AcceptedCount;
    assert a == b;
    assert |a| == |ReportOrder(inp)| && |b| == |AcceptedBelow(inp, n)|;
    LeavingCount(inp, n);
  }

  // ----- what counts as filtered -----

  lemma ContainsExactlyWhen(s: string, t: string)
    ensures Contains(s, t) <==> exists a, b :: s == a + t + b
  {
    if Contains(s, t) {
      var i :| 0 <= i <= |s| && OccursAt(s, t, i);
      assert s == s[..i] + t + s[i + |t|..];
    }
    forall a, b | s == a + t + b ensures Contains(s, t) {
      assert s[|a|..|a| + |t|] == t;
      assert OccursAt(s, t, |a|);
    }
  }

  /** The signals a backtest counts as filtered are refusals whose reason starts
      with the marker and names one of four causes. */
  lemma FilteredExactlyWhen(r: StrategyResult)
    ensures Filtered(r) <==>
              && !r.shouldCreateSignal
              && (exists rest :: r.reason == "NO_SIGNAL:" + rest)
              && (exists cause, a, b :: r.reason == a + cause + b
                    && cause in {"ranging", "multi-timeframe", "nearest resistance", "nearest support"})
  {
    ContainsExactlyWhen(r.reason, "ranging");
    ContainsExactlyWhen(r.reason, "multi-timeframe");
    ContainsExactlyWhen(r.reason, "nearest resistance");
    ContainsExactlyWhen(r.reason, "nearest support");
    hide Contains;
    if "NO_SIGNAL:" <= r.reason {
      assert r.reason == "NO_SIGNAL:" + r.reason[|"NO_SIGNAL:"|..];
    }
  }

  // ----- where and at what price a trade leaves -----

  ghost predicate HitsStop(t: Trade, c: Candle)
  {
    if t.direction.Buy? then c.low <= t.stopLoss else c.high >= t.stopLoss
  }

  ghost predicate HitsTarget(t: Trade, c: Candle)
  {
    if t.direction.Buy? then c.high >= t.takeProfit else c.low <= t.takeProfit
  }

  /** Entered at the next close; leaves at the first candle from the one after
      that touches stop or target, the stop winning a tie; otherwise at the end. */
  lemma LeavesAtFirstTouch(inp: Input, i: nat)
    requires Ascending(inp.candles) && Accepted(inp, i)
    ensures var cs, n, e := inp.candles, |inp.candles|, ExitIndex(inp, i);
            var x := SpecClosed(inp, i);
            && i + 2 <= e <= n
            && x.trade.entryPrice == cs[i + 1].close && x.trade.openedAt == cs[i + 1].timestamp
            && (forall j :: i + 2 <= j < e ==> !HitsStop(x.trade, cs[j]) && !HitsTarget(x.trade, cs[j]))
            && (e < n ==>
                  && (HitsStop(x.trade, cs[e]) || HitsTarget(x.trade, cs[e]))
                  && x.closedAt == cs[e].timestamp
                  && x.exitPrice == (if HitsStop(x.trade, cs[e]) then x.trade.stopLoss else x.trade.takeProfit)
                  && x.result == (if HitsStop(x.trade, cs[e]) then Loss else Win))
            && (e == n ==>
                  && x.closedAt == cs[n - 1].timestamp
                  && x.exitPrice == cs[n - 1].close
                  && x.result == ResultOfPnl(x.pnl))
  {
    var e, t := ExitIndex(inp, i), SpecTrade(inp, i);
    forall j | i + 2 <= j < e
      ensures !HitsStop(t, inp.candles[j]) && !HitsTarget(t, inp.candles[j])
    {
      TouchIsHit(inp, i, j);
    }
    if e < |inp.candles| {
      TouchIsHit(inp, i, e);
    }
  }

  lemma TouchIsHit(inp: Input, i: nat, j: nat)
    requires Ascending(inp.candles) && Accepted(inp, i) && i + 2 <= j < |inp.candles|
    ensures Touches(inp, i, j)
            <==> HitsStop(SpecTrade(inp, i), inp.candles[j]) || HitsTarget(SpecTrade(inp, i), inp.candles[j])
  {
    hide Accepted, ExitIndex, PositionSize, Realised;
  }

  /** Between its levels when they are on the proper sides, strictly inside at
      the end of the data, and always closed later than opened. */
  lemma ExitWithinLevels(inp: Input, i: nat)
    requires Ascending(inp.candles) && Accepted(inp, i)
    requires forall c :: c in inp.candles ==> WellFormed(c)
    ensures var x := SpecClosed(inp, i);
            && x.closedAt > x.trade.openedAt
            && (x.trade.direction.Buy? && x.trade.stopLoss <= x.trade.takeProfit ==>
                  x.trade.stopLoss <= x.exitPrice <= x.trade.takeProfit)
            && (x.trade.direction.Sell? && x.trade.takeProfit <= x.trade.stopLoss ==>
                  x.trade.takeProfit <= x.exitPrice <= x.trade.stopLoss)
            && (ExitIndex(inp, i) == |inp.candles| ==>
                  if x.trade.direction.Buy? then x.trade.stopLoss < x.exitPrice < x.trade.takeProfit
                  else x.trade.takeProfit < x.exitPrice < x.trade.stopLoss)
  {
    LeavesAtFirstTouch(inp, i);
    assert WellFormed(inp.candles[|inp.candles| - 1]);
    hide ExitIndex, SpecTrade, SpecClosed;
  }

  // ----- what a stop costs -----

  lemma ScaledError(u: real, d: real, err: real)
    requires u >= 0.0 && Abs(d) <= err
    ensures Abs(u * d) <= err * u
  {
    NonNegativeProduct(u, err - d);
    NonNegativeProduct(u, err + d);
    assert u * (err - d) == err * u - u * d;
    assert u * (err + d) == err * u + u * d;
  }

  function InMoney(units: int): real
  {
    units as real / ONE as real
  }

  function PlannedRisk(balance: int, riskPercent: real): real
  {
    balance as real * riskPercent
  }

  /** A stop exit moves the balance by the planned risk, up to half of 10^-8
      times (|entry - stop| + 1), through the rounding of size and of profit.
      It is a loss when the stop lies on the losing side of the entry. */
  lemma StopCostsPlannedRisk(inp: Input, i: nat)
    requires Accepted(inp, i) && ExitPrice(inp, i) == SpecTrade(inp, i).stopLoss
    ensures var t := SpecTrade(inp, i);
            var distance := InMoney(AbsInt(t.entryPrice - t.stopLoss));
            var risk := PlannedRisk(BalanceAtSignal(inp, i), RiskPercent(inp));
            var losing := if t.direction.Buy? then t.stopLoss < t.entryPrice else t.stopLoss > t.entryPrice;
            Abs((if losing then -Pnl(inp, i) else Pnl(inp, i)) as real - risk) <= 0.5 * (distance + 1.0)
  {
    StopTrade(inp, i);
    hide *;
    var t := SpecTrade(inp, i);
    SizedMove(BalanceAtSignal(inp, i), RiskPercent(inp), AbsInt(t.entryPrice - t.stopLoss), t.positionSize);
  }

  lemma StopTrade(inp: Input, i: nat)
    requires Accepted(inp, i) && ExitPrice(inp, i) == SpecTrade(inp, i).stopLoss
    ensures var t := SpecTrade(inp, i);
            var units: int := AbsInt(t.entryPrice - t.stopLoss);
            var losing := if t.direction.Buy? then t.stopLoss < t.entryPrice else t.stopLoss > t.entryPrice;
            && units > 0
            && t.positionSize == PositionSize(BalanceAtSignal(inp, i), RiskPercent(inp), units)
            && Pnl(inp, i) == Round(Proceeds(if losing then -units else units, t.positionSize))
  {
    hide RiskPercent, Round, ExitIndex, ExitPrice, PositionSize, Proceeds;
  }

  lemma SizedMove(balance: int, riskPercent: real, units: int, size: int)
    requires units > 0 && size == PositionSize(balance, riskPercent, units)
    ensures Round(Proceeds(-units, size)) == -Round(Proceeds(units, size))
    ensures Abs(Round(Proceeds(units, size)) as real - PlannedRisk(balance, riskPercent))
            <= 0.5 * (InMoney(units) + 1.0)
  {
    ProceedsNear(balance, riskPercent, units);
    ProceedsNegated(units, size);
    hide *;
    RoundedMove(Proceeds(units, size), PlannedRisk(balance, riskPercent), InMoney(units));
  }

  lemma ProceedsNear(balance: int, riskPercent: real, units: int)
    requires units > 0
    ensures Abs(Proceeds(units, PositionSize(balance, riskPercent, units)) - PlannedRisk(balance, riskPercent))
            <= 0.5 * InMoney(units)
  {
    assert ONE as real > 0.0;
    hide *;
    var risk, size := PlannedRisk(balance, riskPercent), PositionSize(balance, riskPercent, units);
    SizeNear(balance, riskPercent, units);
    UnroundedMove(risk, units as real, size as real, ONE as real);
    ProceedsAsReals(units, size);
  }

  lemma SizeNear(balance: int, riskPercent: real, units: int)
    requires units > 0
    ensures Abs(PositionSize(balance, riskPercent, units) as real
                - PlannedRisk(balance, riskPercent) / units as real * ONE as real) <= 0.5
  {
  }

  lemma ProceedsAsReals(units: int, size: int)
    ensures Proceeds(units, size) == units as real * size as real / ONE as real
    ensures InMoney(units) == units as real / ONE as real
  {
  }

  lemma ProceedsNegated(units: int, size: int)
    ensures Proceeds(-units, size) == -Proceeds(units, size)
  {
    assert -units * size == -(units * size);
  }

  lemma RoundedMove(x: real, risk: real, d: real)
    requires Abs(x - risk) <= 0.5 * d
    ensures Abs(Round(x) as real - risk) <= 0.5 * (d + 1.0)
    ensures Round(-x) == -Round(x)
  {
    RoundNegated(x);
  }

  /** A size off by at most half a unit moves `u * s` off by at most half of `u`. */
  lemma UnroundedMove(risk: real, u: real, s: real, one: real)
    requires u > 0.0 && one > 0.0 && Abs(s - risk / u * one) <= 0.5
    ensures Abs(u * s / one - risk) <= 0.5 * (u / one)
  {
    var miss := s - risk / u * one;
    calc {
      u * miss;
      u * s - u * (risk / u * one);
      { assert u * (risk / u * one) == u * (risk / u) * one; assert u * (risk / u) == risk; }
      u * s - risk * one;
    }
    ScaledError(u, miss, 0.5);
    assert u * s / one - risk == u * miss / one by {
      assert risk * one / one == risk;
    }
    QuotientBound(u * miss, 0.5 * u, one);
    assert 0.5 * u / one == 0.5 * (u / one);
  }

  lemma QuotientBound(x: real, bound: real, d: real)
    requires d > 0.0 && Abs(x) <= bound
    ensures Abs(x / d) <= bound / d
  {
    assert x / d <= bound / d;
    assert -bound / d <= x / d;
    assert -bound / d == -(bound / d);
  }

  // ----- no look-ahead -----

  /** The same run stopped after the first `m` candles. */
  ghost function Truncated(inp: Input, m: nat): Input
    requires m <= |inp.candles|
  {
    inp.(candles := inp.candles[..m])
  }

  lemma SameSignal(inp: Input, m: nat, i: nat)
    requires m <= |inp.candles| && i + 2 < m
    ensures Accepted(Truncated(inp, m), i) <==> Accepted(inp, i)
    ensures Accepted(inp, i) ==> TradeOfSize(Truncated(inp, m), i, 0) == TradeOfSize(inp, i, 0)
  {
    assert inp.candles[..m][..i + 1] == inp.candles[..i + 1];
  }

  lemma SameTouch(inp: Input, m: nat, i: nat, j: nat)
    requires m <= |inp.candles| && i + 2 < m && Accepted(inp, i) && j < m
    ensures Accepted(Truncated(inp, m), i)
    ensures Touches(Truncated(inp, m), i, j) <==> Touches(inp, i, j)
  {
    SameSignal(inp, m, i);
    hide Accepted, TradeOfSize, ExitForCandle;
    assert Truncated(inp, m).candles[j] == inp.candles[j];
    assert Truncated(inp, m).candles[i + 1] == inp.candles[i + 1];
  }

  /** A trade that leaves before candle `m` leaves there in the truncated run;
      any other signalled early enough is still open at the truncated end. */
  lemma SameExit(inp: Input, m: nat, i: nat)
    requires m <= |inp.candles| && i + 2 < m && Accepted(inp, i)
    ensures Accepted(Truncated(inp, m), i)
    ensures ExitIndex(Truncated(inp, m), i) == if ExitIndex(inp, i) < m then ExitIndex(inp, i) else m
  {
    SameSignal(inp, m, i);
    var short := Truncated(inp, m);
    var e, s := ExitIndex(inp, i), ExitIndex(short, i);
    assert |short.candles| == m;
    hide Accepted, Touches, FirstTouch, ExitIndex;
    if e < s {
      SameTouch(inp, m, i, e);
    } else if s < e && s < m {
      SameTouch(inp, m, i, s);
    }
  }

  lemma SameExitPrice(inp: Input, m: nat, i: nat)
    requires m <= |inp.candles| && Accepted(inp, i) && ExitIndex(inp, i) < m
    ensures Accepted(Truncated(inp, m), i)
    ensures ExitIndex(Truncated(inp, m), i) == ExitIndex(inp, i)
    ensures TradeOfSize(Truncated(inp, m), i, 0) == TradeOfSize(inp, i, 0)
    ensures ExitPrice(Truncated(inp, m), i) == ExitPrice(inp, i)
  {
    SameSignal(inp, m, i);
    SameExit(inp, m, i);
    hide Accepted, TradeOfSize, ExitIndex, ExitForCandle;
  }

  /** Whether signal `k` has left before candle `j <= m` is the same in both runs. */
  lemma SameLeft(inp: Input, m: nat, j: nat, k: nat)
    requires j <= m <= |inp.candles|
    ensures Accepted(Truncated(inp, m), k) && ExitIndex(Truncated(inp, m), k) < j
            <==> Accepted(inp, k) && ExitIndex(inp, k) < j
    ensures Accepted(inp, k) && ExitIndex(inp, k) < j
            ==> ExitIndex(Truncated(inp, m), k) == ExitIndex(inp, k)
  {
    var short := Truncated(inp, m);
    if k + 2 < m {
      SameSignal(inp, m, k);
      hide Accepted, ExitIndex;
      if Accepted(inp, k) {
        SameExit(inp, m, k);
      }
    } else {
      hide ExitIndex;
      assert !Accepted(short, k);
      assert Accepted(inp, k) ==> ExitIndex(inp, k) >= m;
    }
  }

  lemma {:induction false} SameRealised(inp: Input, m: nat, j: nat, k: nat)
    requires j <= m <= |inp.candles|
    ensures Realised(Truncated(inp, m), j, k) == Realised(inp, j, k)
    decreases k, 0
  {
    var short := Truncated(inp, m);
    hide *;
    RealisedUnfolds(inp, j, k);
    RealisedUnfolds(short, j, k);
    if k > 0 {
      SameRealised(inp, m, j, k - 1);
      SameLeft(inp, m, j, k - 1);
      if Accepted(inp, k - 1) && ExitIndex(inp, k - 1) < j {
        SamePnl(inp, m, k - 1);
      }
    }
  }

  lemma {:induction false} SamePnl(inp: Input, m: nat, i: nat)
    requires m <= |inp.candles| && Accepted(inp, i) && ExitIndex(inp, i) < m
    ensures Accepted(Truncated(inp, m), i)
    ensures SpecTrade(Truncated(inp, m), i) == SpecTrade(inp, i)
    ensures Pnl(Truncated(inp, m), i) == Pnl(inp, i)
    decreases i, 1
  {
    SameExitPrice(inp, m, i);
    SameRealised(inp, m, i + 1, i);
    hide Accepted, TradeOfSize, ExitIndex, ExitPrice, Realised, PositionSize, CalculatePnl;
  }

  lemma SameClosed(inp: Input, m: nat, i: nat)
    requires m <= |inp.candles| && Accepted(inp, i) && ExitIndex(inp, i) < m
    ensures Accepted(Truncated(inp, m), i)
    ensures SpecClosed(Truncated(inp, m), i) == SpecClosed(inp, i)
  {
    var e := ExitIndex(inp, i);
    SamePnl(inp, m, i);
    SameExitPrice(inp, m, i);
    SameRealised(inp, m, e, e);
    hide Accepted, TradeOfSize, ExitIndex, ExitPrice, Realised, SpecTrade, CloseAt, ExitForCandle;
    assert Truncated(inp, m).candles[e] == inp.candles[e];
  }

  lemma {:induction false} SameLeaving(inp: Input, m: nat, e: nat, k: nat)
    requires e < m <= |inp.candles|
    ensures LeavingAt(Truncated(inp, m), e, k) == LeavingAt(inp, e, k)
  {
    hide *;
    LeavingUnfolds(inp, e, k);
    LeavingUnfolds(Truncated(inp, m), e, k);
    if k > 0 {
      SameLeaving(inp, m, e, k - 1);
      SameLeft(inp, m, e + 1, k - 1);
      SameLeft(inp, m, e, k - 1);
    }
  }

  lemma {:induction false} SameClosedBefore(inp: Input, m: nat, j: nat)
    requires j <= m <= |inp.candles|
    ensures ClosedBefore(Truncated(inp, m), j) == ClosedBefore(inp, j)
  {
    hide *;
    ClosedUnfolds(inp, j);
    ClosedUnfolds(Truncated(inp, m), j);
    if j > 0 {
      SameClosedBefore(inp, m, j - 1);
      SameLeaving(inp, m, j - 1, j - 1);
    }
  }

  lemma {:induction false} ClosedHasLeft(inp: Input, j: nat)
    ensures var ks := ClosedBefore(inp, j);
            forall q :: 0 <= q < |ks| ==> Accepted(inp, ks[q]) && ExitIndex(inp, ks[q]) < j
  {
    hide Accepted, ExitIndex, LeavingAt, ClosedBefore, Reverse;
    ClosedUnfolds(inp, j);
    if j > 0 {
      ClosedHasLeft(inp, j - 1);
      ReverseElements(LeavingAt(inp, j - 1, j - 1));
    }
  }

  /** Candles from `m` on change nothing about the trades closed before them:
      the truncated run reports the same trades, sizes, profits and percentages
      first, and has the same balance before every candle up to `m`. */
  lemma NoLookAhead(inp: Input, m: nat, j: nat)
    requires j <= m <= |inp.candles|
    ensures ClosedOf(Truncated(inp, m), ClosedBefore(Truncated(inp, m), m)) == ClosedOf(inp, ClosedBefore(inp, m))
    ensures ClosedOf(inp, ClosedBefore(inp, m)) <= ClosedOf(inp, ReportOrder(inp))
    ensures ClosedOf(inp, ClosedBefore(inp, m)) <= ClosedOf(Truncated(inp, m), ReportOrder(Truncated(inp, m)))
    ensures BalanceBefore(Truncated(inp, m), j) == BalanceBefore(inp, j)
  {
    SameBalance(inp, m, j);
    ReportStarts(inp, m);
    ReportStarts(Truncated(inp, m), m);
    SameClosedBefore(inp, m, m);
    ClosedHasLeft(inp, m);
    hide *;
    var short, ks := Truncated(inp, m), ClosedBefore(inp, m);
    forall q | 0 <= q < |ks| ensures ClosedOf(short, ks)[q] == ClosedOf(inp, ks)[q] {
      SameClosed(inp, m, ks[q]);
    }
  }

  lemma SameBalance(inp: Input, m: nat, j: nat)
    requires j <= m <= |inp.candles|
    ensures BalanceBefore(Truncated(inp, m), j) == BalanceBefore(inp, j)
  {
    SameRealised(inp, m, j, j);
    hide Realised;
  }

  lemma ReportStarts(inp: Input, m: nat)
    requires m <= |inp.candles|
    ensures ClosedOf(inp, ClosedBefore(inp, m)) <= ClosedOf(inp, ReportOrder(inp))
  {
    var n := |inp.candles|;
    ClosedGrows(inp, m, n);
    ClosedConcat(inp, ClosedBefore(inp, n), LeavingAt(inp, n, n));
    hide Accepted, AllAccepted, ClosedOf, ClosedBefore, LeavingAt;
  }

  lemma {:induction false} ClosedGrows(inp: Input, m: nat, n: nat)
    requires m <= n
    ensures ClosedOf(inp, ClosedBefore(inp, m)) <= ClosedOf(inp, ClosedBefore(inp, n))
  {
    hide *;
    if m < n {
      ClosedGrows(inp, m, n - 1);
      ClosedUnfolds(inp, n);
      ReversedAccepted(inp, LeavingAt(inp, n - 1, n - 1));
      ClosedConcat(inp, ClosedBefore(inp, n - 1), Reverse(LeavingAt(inp, n - 1, n - 1)));
    }
  }

  lemma ReversedAccepted(inp: Input, ks: seq<nat>)
    requires AllAccepted(inp, ks)
    ensures AllAccepted(inp, Reverse(ks))
  {
    ReverseElements(ks);
    hide Accepted, Reverse;
  }
}
