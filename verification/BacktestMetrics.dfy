/** The figures a backtest reports, and why they add up. */
module BacktestMetrics {
  import opened Market
  import opened Numbers
  import opened Rounding
  import opened BacktestSpec
  import opened BacktestEngine
  import opened BacktestMoney

  datatype Metrics = Metrics(
    finalBalance: int,
    totalTrades: nat,
    winningTrades: nat,
    losingTrades: nat,
    winRate: int,
    grossProfit: int,
    grossLoss: int,
    profitFactor: Option<int>,
    maxDrawdown: int,
    netPnL: int,
    averageWin: Option<int>,
    averageLoss: Option<int>)

  function WithResult(trades: seq<ClosedTrade>, result: TradeResult): seq<ClosedTrade>
  {
    if trades == [] then []
    else if trades[|trades| - 1].result == result then
      WithResult(trades[..|trades| - 1], result) + [trades[|trades| - 1]]
    else WithResult(trades[..|trades| - 1], result)
  }

  /** A ratio, in units of 10^-8 and rounded to them. */
  function Ratio(x: int, y: int): int
    requires y != 0
  {
    Round(x as real / y as real * ONE as real)
  }

  function Quotient(x: int, y: int): int
    requires y != 0
  {
    Round(x as real / y as real)
  }

  // ----- relative drawdown -----

  /** The fall from `peak` to `balance`, relative to the peak. */
  function Fall(peak: int, balance: int): real
    requires peak > 0
  {
    (peak - balance) as real / peak as real
  }

  /** The highest of the first `j + 1` balances. */
  ghost function Peak(h: seq<int>, j: nat): (p: int)
    requires j < |h|
    ensures forall i :: 0 <= i <= j ==> h[i] <= p
    ensures exists i :: 0 <= i <= j && h[i] == p
  {
    if j == 0 then h[0] else MaxInt(Peak(h, j - 1), h[j])
  }

  /** How far balance `j` lies below the positive peak before it. */
  ghost function DropAt(h: seq<int>, j: nat): real
    requires j < |h|
  {
    if Peak(h, j) > 0 then Fall(Peak(h, j), h[j]) else 0.0
  }

  /** `r` is the largest drop from a positive peak among the first `m` balances. */
  ghost predicate IsLargestDrop(h: seq<int>, m: nat, r: real)
    requires m <= |h|
  {
    && r >= 0.0
    && (forall j :: 0 <= j < m ==> DropAt(h, j) <= r)
    && (r == 0.0 || exists j :: 0 <= j < m && DropAt(h, j) == r)
  }

  ghost predicate IsPeakDrawdown(h: seq<int>, r: real)
  {
    IsLargestDrop(h, |h|, r)
  }

  /** `r` is the largest fall between any positive balance and a later one. */
  ghost predicate IsPairDrawdown(h: seq<int>, r: real)
  {
    && r >= 0.0
    && (forall i, j :: 0 <= i <= j < |h| && h[i] > 0 ==> Fall(h[i], h[j]) <= r)
    && (r == 0.0 || exists i, j :: 0 <= i <= j < |h| && h[i] > 0 && Fall(h[i], h[j]) == r)
  }

  method MaxDrawdown(history: seq<int>) returns (r: real)
    ensures IsPeakDrawdown(history, r)
  {
    var peak := if |history| > 0 then history[0] else 0;
    r := 0.0;
    for j := 0 to |history|
      invariant j > 0 ==> peak == Peak(history, j - 1)
      invariant j == 0 && |history| > 0 ==> peak == history[0]
      invariant IsLargestDrop(history, j, r)
    {
      LargestDropStep(history, j, r);
      peak := MaxInt(peak, history[j]);
      if peak > 0 {
        r := Max(r, Fall(peak, history[j]));
      }
    }
  }

  lemma LargestDropStep(h: seq<int>, j: nat, r: real)
    requires j < |h| && IsLargestDrop(h, j, r)
    ensures IsLargestDrop(h, j + 1, Max(r, DropAt(h, j)))
  {
    hide DropAt;
    var worst := Max(r, DropAt(h, j));
    if worst == r && r != 0.0 {
      var q :| 0 <= q < j && DropAt(h, q) == r;
      assert DropAt(h, q) == worst;
    }
  }

  /** Falls compare as cross products of heights and depths. */
  lemma FallOrder(p: int, x: int, q: int, y: int)
    requires p > 0 && q > 0
    ensures Fall(p, x) <= Fall(q, y) <==> -x * q <= -y * p
  {
    var a, b := (p - x) as real, (q - y) as real;
    assert a * q as real == (p * q - x * q) as real && b * p as real == (q * p - y * p) as real;
    if -x * q <= -y * p {
      CrossMultiply(a, p as real, b, q as real);
    } else {
      CrossMultiplyStrictly(b, q as real, a, p as real);
    }
  }

  lemma CrossMultiply(a: real, b: real, c: real, d: real)
    requires b > 0.0 && d > 0.0 && a * d <= c * b
    ensures a / b <= c / d
  {
    var r := c / d;
    assert r * d == c;
    assert r * b * d == c * b;
    if a > r * b {
      LessTimes(r * b, a, d);
    }
    QuotientAtMost(a, r, b);
  }

  lemma CrossMultiplyStrictly(a: real, b: real, c: real, d: real)
    requires b > 0.0 && d > 0.0 && a * d < c * b
    ensures a / b < c / d
  {
    CrossMultiply(a, b, c, d);
    var q, r := a / b, c / d;
    assert q * b == a && r * d == c;
    assert q * b * d == a * d && r * d * b == c * b;
  }

  lemma FallAtMostOne(peak: int, balance: int)
    requires peak > 0 && balance >= 0
    ensures Fall(peak, balance) <= 1.0
  {
    QuotientAtMost((peak - balance) as real, 1.0, peak as real);
  }

  lemma FallBelowZero(peak: int, balance: int)
    requires peak > 0 && balance < 0
    ensures Fall(peak, balance) > 1.0
  {
    QuotientAbove((peak - balance) as real, 1.0, peak as real);
  }

  /** Where a positive figure is reached: a peak and a later balance. */
  lemma DropIsAFall(h: seq<int>, r: real) returns (i: nat, j: nat)
    requires IsPeakDrawdown(h, r) && r > 0.0
    ensures i <= j < |h| && h[i] == Peak(h, j) > 0 && Fall(h[i], h[j]) == r
  {
    j :| 0 <= j < |h| && DropAt(h, j) == r;
    i :| 0 <= i <= j && h[i] == Peak(h, j);
    hide Fall;
  }

  /** Some balance is negative after a positive one. */
  predicate Overdrawn(h: seq<int>)
  {
    exists i, j :: 0 <= i < j < |h| && h[i] > 0 && h[j] < 0
  }

  /** The reported fall exceeds the whole peak exactly when some balance is
      negative after a positive one. */
  lemma DrawdownAboveOne(h: seq<int>, r: real)
    requires IsPeakDrawdown(h, r)
    ensures r > 1.0 <==> Overdrawn(h)
  {
    hide Fall, Peak;
    if r > 1.0 {
      var i, j := DropIsAFall(h, r);
      if h[j] >= 0 {
        FallAtMostOne(h[i], h[j]);
      }
      assert h[i] > 0 && h[j] < 0;
    }
    forall i, j | 0 <= i < j < |h| && h[i] > 0 && h[j] < 0 ensures r > 1.0 {
      assert DropAt(h, j) <= r;
      FallBelowZero(Peak(h, j), h[j]);
    }
  }

  // ----- when the running peak gives the largest pair -----

  /** Every positive balance up to `k` is `v`, and one is. */
  predicate OneHeight(h: seq<int>, k: nat, v: int)
    requires k < |h|
  {
    && (exists i :: 0 <= i <= k && h[i] == v)
    && (forall i :: 0 <= i <= k && h[i] > 0 ==> h[i] == v)
  }

  /** Relative to the height before it, no balance lies as deep below zero as
      balance `k` does relative to `v`. */
  predicate Deepest(h: seq<int>, k: nat, v: int)
    requires k < |h|
  {
    forall i, j :: 0 <= i <= j < |h| && h[i] > 0 && h[j] < 0 ==> -h[j] * v <= -h[k] * h[i]
  }

  /** The deepest overdraft comes while only one height had been reached. */
  ghost predicate DeepestFromOneHeight(h: seq<int>)
  {
    exists k, v :: 0 <= k < |h| && v > 0 && h[k] < 0 && OneHeight(h, k, v) && Deepest(h, k, v)
  }

  lemma PairsWithoutOverdraft(h: seq<int>, r: real)
    requires IsPeakDrawdown(h, r) && !Overdrawn(h)
    ensures IsPairDrawdown(h, r)
  {
    hide Fall, Peak;
    forall i, j | 0 <= i <= j < |h| && h[i] > 0 ensures Fall(h[i], h[j]) <= r {
      assert DropAt(h, j) <= r;
      assert h[j] >= 0;
      FallOrder(h[i], h[j], Peak(h, j), h[j]);
      TimesMonotone(h[j], h[i], Peak(h, j));
    }
    if r != 0.0 {
      var i, j := DropIsAFall(h, r);
    }
  }

  lemma TimesMonotone(x: int, a: int, b: int)
    requires x >= 0 && a <= b
    ensures -x * b <= -x * a
  {
  }

  lemma OneHeightIsPeak(h: seq<int>, k: nat, v: int)
    requires k < |h| && v > 0 && OneHeight(h, k, v)
    ensures Peak(h, k) == v
  {
  }

  lemma PairsFromOneHeight(h: seq<int>, r: real, k: nat, v: int)
    requires IsPeakDrawdown(h, r)
    requires k < |h| && v > 0 && h[k] < 0 && OneHeight(h, k, v) && Deepest(h, k, v)
    ensures IsPairDrawdown(h, r)
  {
    hide Fall, Peak;
    OneHeightIsPeak(h, k, v);
    assert DropAt(h, k) <= r;
    FallBelowZero(v, h[k]);
    forall i, j | 0 <= i <= j < |h| && h[i] > 0 ensures Fall(h[i], h[j]) <= r {
      if h[j] < 0 {
        FallOrder(h[i], h[j], v, h[k]);
      } else {
        FallAtMostOne(h[i], h[j]);
      }
    }
    var i, j := DropIsAFall(h, r);
  }

  lemma PairsNeedOneHeight(h: seq<int>, r: real)
    requires IsPeakDrawdown(h, r) && IsPairDrawdown(h, r) && Overdrawn(h)
    ensures DeepestFromOneHeight(h)
  {
    DrawdownAboveOne(h, r);
    var p, k := DropIsAFall(h, r);
    var v := h[p];
    if h[k] >= 0 {
      FallAtMostOne(v, h[k]);
    }
    hide Fall, Peak, DropAt;
    forall i | 0 <= i <= k && h[i] > 0 ensures h[i] == v {
      NotLower(h[i], v, h[k], r);
    }
    forall i, j | 0 <= i <= j < |h| && h[i] > 0 && h[j] < 0 ensures -h[j] * v <= -h[k] * h[i] {
      assert Fall(h[i], h[j]) <= r;
      FallOrder(h[i], h[j], v, h[k]);
    }
    assert OneHeight(h, k, v) && Deepest(h, k, v);
  }

  /** To the same overdraft, a smaller fall starts no lower. */
  lemma NotLower(height: int, v: int, balance: int, r: real)
    requires height > 0 && v > 0 && balance < 0 && Fall(height, balance) <= r == Fall(v, balance)
    ensures v <= height
  {
    FallOrder(height, balance, v, balance);
    CancelDepth(-balance, v, height);
  }

  lemma CancelDepth(d: int, a: int, b: int)
    requires d > 0 && d * a <= d * b
    ensures a <= b
  {
  }

  /** The one-pass figure is the largest relative fall over all ordered pairs
      exactly when no balance is negative after a positive one, or the deepest
      overdraft came from a history with a single positive height. */
  lemma PairsExactlyWhen(h: seq<int>, r: real)
    requires IsPeakDrawdown(h, r)
    ensures IsPairDrawdown(h, r) <==> !Overdrawn(h) || DeepestFromOneHeight(h)
  {
    hide IsPeakDrawdown, IsPairDrawdown, Overdrawn;
    if !Overdrawn(h) {
      PairsWithoutOverdraft(h, r);
    } else if IsPairDrawdown(h, r) {
      PairsNeedOneHeight(h, r);
    }
    if DeepestFromOneHeight(h) {
      var k, v :| 0 <= k < |h| && v > 0 && h[k] < 0 && OneHeight(h, k, v) && Deepest(h, k, v);
      PairsFromOneHeight(h, r, k, v);
    }
  }

  /** They can differ: from 1 and 2 down to -1 the pass reports a fall of 3/2,
      the pair (1, -1) is a fall of 2. */
  lemma PairsFailBelowZero(r: real)
    requires IsPeakDrawdown([1, 2, -1], r)
    ensures r == 1.5 && !IsPairDrawdown([1, 2, -1], r)
  {
    var h := [1, 2, -1];
    ExampleDrops(h);
    hide DropAt, Peak, Fall;
    assert DropAt(h, 2) <= r;
    assert !(Fall(h[0], h[2]) <= r);
  }

  lemma ExampleDrops(h: seq<int>)
    requires h == [1, 2, -1]
    ensures DropAt(h, 0) == 0.0 && DropAt(h, 1) == 0.0 && DropAt(h, 2) == 1.5
    ensures Fall(h[0], h[2]) == 2.0
  {
    assert Peak(h, 0) == 1 && Peak(h, 1) == 2 && Peak(h, 2) == 2;
  }

  /** Without overdrafts it is, and lies between 0 and 1. */
  lemma PeaksGivePairs(h: seq<int>, r: real)
    requires IsPeakDrawdown(h, r) && !Overdrawn(h)
    ensures IsPairDrawdown(h, r) && 0.0 <= r <= 1.0
  {
    PairsExactlyWhen(h, r);
    DrawdownAboveOne(h, r);
    hide IsPairDrawdown, Overdrawn;
  }

  // ----- the figures -----

  method Calculate(initialBalance: int, history: seq<int>, trades: seq<ClosedTrade>) returns (m: Metrics)
    ensures m.finalBalance == if history == [] then initialBalance else history[|history| - 1]
    ensures m.netPnL == m.finalBalance - initialBalance
    ensures m.totalTrades == |trades|
    ensures m.winningTrades == |WithResult(trades, Win)| && m.losingTrades == |WithResult(trades, Loss)|
    ensures m.grossProfit == TotalPnl(WithResult(trades, Win))
    ensures m.grossLoss == AbsInt(TotalPnl(WithResult(trades, Loss)))
    ensures m.winRate == if trades == [] then 0 else Ratio(m.winningTrades, |trades|)
    ensures m.profitFactor == if m.grossLoss != 0 then Some(Ratio(m.grossProfit, m.grossLoss))
                              else if m.grossProfit > 0 then None else Some(0)
    ensures exists r :: IsPeakDrawdown(history, r) && m.maxDrawdown == Round(r * ONE as real)
    ensures m.averageWin == if m.winningTrades == 0 then None else Some(Quotient(m.grossProfit, m.winningTrades))
    ensures m.averageLoss == if m.losingTrades == 0 then None else Some(Quotient(m.grossLoss, m.losingTrades))
  {
    var winning := WithResult(trades, Win);
    var losing := WithResult(trades, Loss);
    var grossProfit := TotalPnl(winning);
    var grossLoss := AbsInt(TotalPnl(losing));
    var finalBalance := if history == [] then initialBalance else history[|history| - 1];
    var drawdown := MaxDrawdown(history);
    m := Metrics(
      finalBalance, |trades|, |winning|, |losing|,
      if trades == [] then 0 else Ratio(|winning|, |trades|),
      grossProfit, grossLoss,
      if grossLoss == 0 then (if grossProfit > 0 then None else Some(0)) else Some(Ratio(grossProfit, grossLoss)),
      Round(drawdown * ONE as real),
      finalBalance - initialBalance,
      if |winning| == 0 then None else Some(Quotient(grossProfit, |winning|)),
      if |losing| == 0 then None else Some(Quotient(grossLoss, |losing|)));
  }

  /** The reported ratios and means, multiplied out: each is the one grid value
      nearest to what it names. */
  lemma FiguresAreNearest(x: int, y: int)
    requires y != 0
    ensures NearestRatio(Ratio(x, y), x, y)
    ensures NearestQuotient(Quotient(x, y), x, y)
  {
    RatioRounds(x, y, Ratio(x, y));
    QuotientRounds(x, y, Quotient(x, y));
    hide Round, NearestRatio, NearestQuotient;
  }

  /** The trades with a label are exactly those that carry it, each as often as
      it is listed. */
  lemma {:induction false} WithResultExactly(trades: seq<ClosedTrade>, result: TradeResult, c: ClosedTrade)
    ensures multiset(WithResult(trades, result))[c] == if c.result == result then multiset(trades)[c] else 0
  {
    if trades != [] {
      var n := |trades| - 1;
      WithResultExactly(trades[..n], result, c);
      assert trades == trades[..n] + [trades[n]];
    }
  }

  // ----- conservation -----

  lemma {:induction false} ResultsPartition(trades: seq<ClosedTrade>)
    ensures TotalPnl(trades) == TotalPnl(WithResult(trades, Win)) + TotalPnl(WithResult(trades, Loss))
                                + TotalPnl(WithResult(trades, Breakeven))
    ensures |trades| == |WithResult(trades, Win)| + |WithResult(trades, Loss)| + |WithResult(trades, Breakeven)|
  {
    if trades != [] {
      var rest, last := trades[..|trades| - 1], trades[|trades| - 1];
      ResultsPartition(rest);
      TotalSnoc(WithResult(rest, last.result), last);
    }
  }

  lemma {:induction false} BreakevensAreFlat(inp: Input, ks: seq<nat>)
    requires AllAccepted(inp, ks)
    ensures TotalPnl(WithResult(ClosedOf(inp, ks), Breakeven)) == 0
  {
    hide Accepted, SpecClosed;
    if ks != [] {
      var rest, k := ks[..|ks| - 1], ks[|ks| - 1];
      BreakevensAreFlat(inp, rest);
      BreakevenIsFlat(inp, k);
      assert ClosedOf(inp, ks)[..|ks| - 1] == ClosedOf(inp, rest);
      TotalSnoc(WithResult(ClosedOf(inp, rest), Breakeven), SpecClosed(inp, k));
    }
  }

  lemma BreakevenIsFlat(inp: Input, k: nat)
    requires Accepted(inp, k)
    ensures SpecClosed(inp, k).result.Breakeven? ==> SpecClosed(inp, k).pnl == 0
  {
    hide PositionSize, CalculatePnl, BalanceBefore, Accepted, ExitIndex;
  }

  /** Net profit is the sum of the trades, and the gross figures account for all
      of it: a trade that is neither a win nor a loss moved nothing. */
  lemma BacktestAddsUp(inp: Input)
    ensures var trades := ClosedOf(inp, ReportOrder(inp));
            var history := RunningBalances(inp.initialBalance, trades);
            && |history| == |trades| + 1
            && (forall q :: 0 <= q <= |trades| ==>
                  history[q] == inp.initialBalance + TotalPnl(trades[..q]))
            && history[|trades|] - inp.initialBalance
               == TotalPnl(WithResult(trades, Win)) + TotalPnl(WithResult(trades, Loss))
  {
    var trades := ClosedOf(inp, ReportOrder(inp));
    ResultsPartition(trades);
    BreakevensAreFlat(inp, ReportOrder(inp));
    forall q | 0 <= q <= |trades|
      ensures RunningBalances(inp.initialBalance, trades)[q] == inp.initialBalance + TotalPnl(trades[..q])
    {
      PrefixBalances(inp.initialBalance, trades, q);
    }
  }

  lemma {:induction false} PrefixBalances(initial: int, cs: seq<ClosedTrade>, q: nat)
    requires q <= |cs|
    ensures RunningBalances(initial, cs)[q] == initial + TotalPnl(cs[..q])
  {
    if q == |cs| {
      assert cs[..q] == cs;
    } else {
      PrefixBalances(initial, cs[..|cs| - 1], q);
      assert cs[..|cs| - 1][..q] == cs[..q];
    }
  }

  // ----- filter reasons -----

  ghost function Total(m: map<string, nat>): nat
  {
    if m == map[] then 0
    else
      var k :| k in m;
      m[k] + Total(m - {k})
  }

  lemma {:induction false} TotalTakeOut(m: map<string, nat>, k: string)
    requires k in m
    ensures Total(m) == m[k] + Total(m - {k})
    decreases |m|
  {
    var c :| c in m && Total(m) == m[c] + Total(m - {c});
    if c != k {
      TotalTakeOut(m - {c}, k);
      assert m - {c} - {k} == m - {k} - {c};
      TotalTakeOut(m - {k}, c);
    }
  }

  /** The per-reason counts add up to the number of filtered signals. */
  lemma {:induction false} ReasonsAddUp(inp: Input, m: nat, reasons: map<string, nat>)
    requires m <= |inp.candles| && CountsReasons(inp, m, reasons)
    ensures Total(reasons) == FilteredCount(inp, m)
  {
    hide Filtered, SignalAt;
    if m == 0 {
      assert reasons == map[] by {
        if k :| k in reasons {
          assert false;
        }
      }
    } else {
      var s := SignalAt(inp, m - 1);
      if s.Some? && Filtered(s.value) {
        var r := s.value.reason;
        assert FilteredFor(inp, r, m) == FilteredFor(inp, r, m - 1) + 1;
        var before := if reasons[r] == 1 then reasons - {r} else reasons[r := reasons[r] - 1];
        ReasonsAddUp(inp, m - 1, before);
        TotalTakeOut(reasons, r);
        if r in before {
          TotalTakeOut(before, r);
          assert before - {r} == reasons - {r};
        }
      } else {
        ReasonsAddUp(inp, m - 1, reasons);
      }
    }
  }
}
