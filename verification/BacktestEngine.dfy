/** The backtest loop: one pass over the candles with several positions open,
    closing from the young end of a shared list, sizing new positions off the
    moving balance, and closing what is left at the last candle. */
module BacktestEngine {
  import opened Market
  import opened Rounding
  import opened Sequences
  import opened BacktestSpec

  /** The open positions, shared by the loop and the two closing passes. */
  class OpenTrades {
    var items: seq<Trade>

    constructor ()
      ensures items == []
    {
      items := [];
    }
  }

  datatype Report = Report(
    trades: seq<ClosedTrade>,
    balanceHistory: seq<int>,
    signalsBeforeFilters: nat,
    signalsAfterFilters: nat,
    filteredSignals: nat,
    filterReasons: map<string, nat>)

  // ----- one closing pass -----

  predicate Triggers(t: Trade, c: Candle)
  {
    t.openedAt < c.timestamp && ExitForCandle(t, c).Some?
  }

  function Survivors(ts: seq<Trade>, c: Candle): seq<Trade>
  {
    if ts == [] then []
    else if Triggers(ts[0], c) then Survivors(ts[1..], c)
    else [ts[0]] + Survivors(ts[1..], c)
  }

  function Triggered(ts: seq<Trade>, c: Candle, balance: int): seq<ClosedTrade>
  {
    if ts == [] then []
    else if Triggers(ts[0], c) then
      [CloseAt(ts[0], c, ExitForCandle(ts[0], c).value, balance)] + Triggered(ts[1..], c, balance)
    else Triggered(ts[1..], c, balance)
  }

  function EndClosed(ts: seq<Trade>, last: Candle, balance: int): seq<ClosedTrade>
  {
    if ts == [] then [] else EndClosed(ts[..|ts| - 1], last, balance) + [CloseAtEnd(ts[|ts| - 1], last, balance)]
  }

  function TotalPnl(cs: seq<ClosedTrade>): int
  {
    if cs == [] then 0 else TotalPnl(cs[..|cs| - 1]) + cs[|cs| - 1].pnl
  }

  lemma {:induction false} TotalConcat(a: seq<ClosedTrade>, b: seq<ClosedTrade>)
    ensures TotalPnl(a + b) == TotalPnl(a) + TotalPnl(b)
  {
    if b == [] {
      assert a + b == a;
    } else {
      assert (a + b)[..|a + b| - 1] == a + b[..|b| - 1];
      TotalConcat(a, b[..|b| - 1]);
    }
  }

  lemma TotalSnoc(cs: seq<ClosedTrade>, c: ClosedTrade)
    ensures TotalPnl(cs + [c]) == TotalPnl(cs) + c.pnl
  {
    assert (cs + [c])[..|cs|] == cs;
  }

  lemma {:induction false} TotalReverse(cs: seq<ClosedTrade>)
    ensures TotalPnl(Reverse(cs)) == TotalPnl(cs)
  {
    if cs != [] {
      TotalReverse(cs[1..]);
      TotalConcat(Reverse(cs[1..]), [cs[0]]);
      TotalConcat([cs[0]], cs[1..]);
      assert [cs[0]] + cs[1..] == cs;
    }
  }

  /** Balances after each closed trade, starting with the initial one. */
  function RunningBalances(initial: int, cs: seq<ClosedTrade>): (h: seq<int>)
    ensures |h| == |cs| + 1 && h[0] == initial
    ensures h[|cs|] == initial + TotalPnl(cs)
  {
    if cs == [] then [initial]
    else
      var h := RunningBalances(initial, cs[..|cs| - 1]);
      h + [h[|cs| - 1] + cs[|cs| - 1].pnl]
  }

  /** One step of the backwards pass: the part from `i` on, given the part after it. */
  lemma PassHead(ts: seq<Trade>, i: nat, c: Candle, balance: int)
    requires i < |ts|
    ensures var here, after := ts[i..], ts[i + 1..];
            var items := ts[..i + 1] + Survivors(after, c);
            && items[i] == ts[i]
            && (Triggers(ts[i], c) ==>
                  && items[..i] + items[i + 1..] == ts[..i] + Survivors(here, c)
                  && Reverse(Triggered(here, c, balance))
                     == Reverse(Triggered(after, c, balance))
                        + [CloseAt(ts[i], c, ExitForCandle(ts[i], c).value, balance)])
            && (!Triggers(ts[i], c) ==>
                  && items == ts[..i] + Survivors(here, c)
                  && Triggered(here, c, balance) == Triggered(after, c, balance))
  {
    var here, after := ts[i..], ts[i + 1..];
    assert here[1..] == after && here[0] == ts[i];
    var rest := Survivors(after, c);
    var items := ts[..i + 1] + rest;
    if Triggers(ts[i], c) {
      assert items[..i] == ts[..i] && items[i + 1..] == rest;
      var hit := CloseAt(ts[i], c, ExitForCandle(ts[i], c).value, balance);
      var hits := Triggered(after, c, balance);
      assert ([hit] + hits)[1..] == hits;
    } else {
      assert items == ts[..i] + ([ts[i]] + rest);
    }
  }

  method CloseTriggeredTrades(open: OpenTrades, candle: Candle, balance: int)
    returns (closed: seq<ClosedTrade>)
    modifies open
    ensures open.items == Survivors(old(open.items), candle)
    ensures closed == Reverse(Triggered(old(open.items), candle, balance))
  {
    ghost var was := open.items;
    closed := [];
    var index := |open.items| - 1;
    while index >= 0
      invariant -1 <= index < |was|
      invariant open.items == was[..index + 1] + Survivors(was[index + 1..], candle)
      invariant closed == Reverse(Triggered(was[index + 1..], candle, balance))
    {
      PassHead(was, index, candle, balance);
      var trade := open.items[index];
      if trade.openedAt < candle.timestamp {
        var exit := ExitForCandle(trade, candle);
        if exit.Some? {
          closed := closed + [CloseAt(trade, candle, exit.value, balance)];
          open.items := open.items[..index] + open.items[index + 1..];
        }
      }
      index := index - 1;
    }
  }

  method CloseRemainingTrades(open: OpenTrades, last: Candle, balance: int)
    returns (closed: seq<ClosedTrade>)
    modifies open
    ensures open.items == []
    ensures closed == EndClosed(old(open.items), last, balance)
  {
    closed := [];
    for index := 0 to |open.items|
      invariant open.items == old(open.items)
      invariant closed == EndClosed(open.items[..index], last, balance)
    {
      closed := closed + [CloseAtEnd(open.items[index], last, balance)];
      assert open.items[..index + 1][..index] == open.items[..index];
    }
    assert open.items[..|open.items|] == open.items;
    open.items := [];
  }

  /** Rounding to eight places changes nothing when the balance is on that grid. */
  lemma BookOne(initial: int, cs: seq<ClosedTrade>, c: ClosedTrade)
    ensures var h := RunningBalances(initial, cs);
            RunningBalances(initial, cs + [c]) == h + [Round((h[|cs|] + c.pnl) as real)]
  {
    assert (cs + [c])[..|cs|] == cs;
    RoundOnGrid(RunningBalances(initial, cs)[|cs|] + c.pnl);
  }

  /** Adds the closed trades to the report and moves the balance with each. */
  method Book(ghost initial: int, trades: seq<ClosedTrade>, history: seq<int>, balance: int,
              closed: seq<ClosedTrade>)
    returns (trades': seq<ClosedTrade>, history': seq<int>, balance': int)
    requires history == RunningBalances(initial, trades) && balance == history[|trades|]
    ensures trades' == trades + closed
    ensures history' == RunningBalances(initial, trades')
    ensures balance' == history'[|trades'|]
  {
    hide RunningBalances;
    trades', history', balance' := trades, history, balance;
    for q := 0 to |closed|
      invariant trades' == trades + closed[..q]
      invariant history' == RunningBalances(initial, trades')
      invariant balance' == history'[|trades'|]
    {
      BookOne(initial, trades', closed[q]);
      balance' := Round((balance' + closed[q].pnl) as real);
      history' := history' + [balance'];
      trades' := trades' + [closed[q]];
    }
  }

  // ----- the pass computes the per-signal specification -----

  lemma {:induction false} SurvivorsConcat(a: seq<Trade>, b: seq<Trade>, c: Candle)
    ensures Survivors(a + b, c) == Survivors(a, c) + Survivors(b, c)
  {
    if a == [] {
      assert a + b == b;
    } else {
      assert (a + b)[1..] == a[1..] + b;
      SurvivorsConcat(a[1..], b, c);
    }
  }

  lemma {:induction false} TriggeredConcat(a: seq<Trade>, b: seq<Trade>, c: Candle, balance: int)
    ensures Triggered(a + b, c, balance) == Triggered(a, c, balance) + Triggered(b, c, balance)
  {
    if a == [] {
      assert a + b == b;
    } else {
      assert (a + b)[1..] == a[1..] + b;
      TriggeredConcat(a[1..], b, c, balance);
    }
  }

  /** A trade still open before candle `j` triggers there exactly when `j` is its exit. */
  lemma TriggersAtExit(inp: Input, k: nat, j: nat)
    requires j < |inp.candles| && Accepted(inp, k) && k < j <= ExitIndex(inp, k)
    ensures Triggers(SpecTrade(inp, k), inp.candles[j]) <==> ExitIndex(inp, k) == j
    ensures ExitForCandle(SpecTrade(inp, k), inp.candles[j])
            == ExitForCandle(TradeOfSize(inp, k, 0), inp.candles[j])
  {
    assert Triggers(SpecTrade(inp, k), inp.candles[j]) <==> Touches(inp, k, j);
  }

  lemma {:induction false} PassOnOpen(inp: Input, j: nat, m: nat)
    requires m <= j < |inp.candles|
    ensures Survivors(TradesOf(inp, OpenBefore(inp, j, m)), inp.candles[j])
            == TradesOf(inp, OpenBefore(inp, j + 1, m))
    ensures Triggered(TradesOf(inp, OpenBefore(inp, j, m)), inp.candles[j], BalanceBefore(inp, j))
            == ClosedOf(inp, LeavingAt(inp, j, m))
  {
    if m > 0 {
      var k, c, b := m - 1, inp.candles[j], BalanceBefore(inp, j);
      PassOnOpen(inp, j, k);
      if Accepted(inp, k) && ExitIndex(inp, k) >= j {
        var ks := OpenBefore(inp, j, k);
        var ts, t := TradesOf(inp, ks), SpecTrade(inp, k);
        assert (ks + [k])[..|ks|] == ks;
        assert TradesOf(inp, OpenBefore(inp, j, m)) == ts + [t];
        SurvivorsConcat(ts, [t], c);
        TriggeredConcat(ts, [t], c, b);
        TriggersAtExit(inp, k, j);
        assert Survivors([t], c) == if Triggers(t, c) then [] else [t];
        assert Triggered([t], c, b) == if Triggers(t, c) then [SpecClosed(inp, k)] else [];
        OneMore(inp, OpenBefore(inp, j + 1, k), k);
        OneMore(inp, LeavingAt(inp, j, k), k);
      }
    }
  }

  lemma OneMore(inp: Input, ks: seq<nat>, k: nat)
    requires AllAccepted(inp, ks) && Accepted(inp, k)
    ensures AllAccepted(inp, ks + [k])
    ensures TradesOf(inp, ks + [k]) == TradesOf(inp, ks) + [SpecTrade(inp, k)]
    ensures ClosedOf(inp, ks + [k]) == ClosedOf(inp, ks) + [SpecClosed(inp, k)]
  {
    assert (ks + [k])[..|ks|] == ks;
  }

  lemma {:induction false} EndPass(inp: Input, m: nat)
    requires inp.candles != [] && m <= |inp.candles|
    ensures OpenBefore(inp, |inp.candles|, m) == LeavingAt(inp, |inp.candles|, m)
    ensures var n := |inp.candles|;
            EndClosed(TradesOf(inp, LeavingAt(inp, n, m)), inp.candles[n - 1], BalanceBefore(inp, n))
            == ClosedOf(inp, LeavingAt(inp, n, m))
  {
    hide Accepted, ExitIndex, SpecTrade, BalanceBefore, TradesOf, ClosedOf, SpecClosed;
    RunStart(inp);
    if m > 0 {
      EndPass(inp, m - 1);
      var n, k := |inp.candles|, m - 1;
      if Accepted(inp, k) && ExitIndex(inp, k) == n {
        var ks := LeavingAt(inp, n, k);
        OneMore(inp, ks, k);
        SpecAtEnd(inp, k);
        assert (TradesOf(inp, ks) + [SpecTrade(inp, k)])[..|TradesOf(inp, ks)|] == TradesOf(inp, ks);
      }
    }
  }

  lemma SpecAtEnd(inp: Input, k: nat)
    requires Accepted(inp, k) && ExitIndex(inp, k) == |inp.candles|
    ensures SpecClosed(inp, k)
            == CloseAtEnd(SpecTrade(inp, k), inp.candles[|inp.candles| - 1],
                          BalanceBefore(inp, |inp.candles|))
  {
  }

  // ----- the balance -----

  /** Trades signalled at `j - 1` or later cannot have left before candle `j`. */
  lemma {:induction false} RealisedSettles(inp: Input, j: nat, m: nat, m': nat)
    requires j <= m' + 1 && m' <= m
    ensures Realised(inp, j, m) == Realised(inp, j, m')
  {
    if m' < m {
      RealisedSettles(inp, j, m - 1, m');
    }
  }

  lemma LeavingUnfolds(inp: Input, e: nat, m: nat)
    ensures LeavingAt(inp, e, m)
            == if m == 0 then []
               else if Accepted(inp, m - 1) && ExitIndex(inp, m - 1) == e then LeavingAt(inp, e, m - 1) + [m - 1]
               else LeavingAt(inp, e, m - 1)
  {
  }

  lemma RealisedUnfolds(inp: Input, j: nat, m: nat)
    ensures Realised(inp, j, m)
            == if m == 0 then 0
               else Realised(inp, j, m - 1)
                    + if Accepted(inp, m - 1) && ExitIndex(inp, m - 1) < j then Pnl(inp, m - 1) else 0
  {
  }

  lemma {:induction false} RealisedStep(inp: Input, j: nat, m: nat)
    ensures Realised(inp, j + 1, m)
            == Realised(inp, j, m) + TotalPnl(ClosedOf(inp, LeavingAt(inp, j, m)))
  {
    hide *;
    RealisedUnfolds(inp, j, m);
    RealisedUnfolds(inp, j + 1, m);
    LeavingUnfolds(inp, j, m);
    if m == 0 {
      BookedStart(inp);
    } else {
      RealisedStep(inp, j, m - 1);
      if Accepted(inp, m - 1) && ExitIndex(inp, m - 1) == j {
        var ks := LeavingAt(inp, j, m - 1);
        OneMore(inp, ks, m - 1);
        PnlOfClosed(inp, m - 1);
        TotalSnoc(ClosedOf(inp, ks), SpecClosed(inp, m - 1));
      }
    }
  }

  lemma PnlOfClosed(inp: Input, k: nat)
    requires Accepted(inp, k)
    ensures SpecClosed(inp, k).pnl == Pnl(inp, k)
    ensures SpecClosed(inp, k).exitPrice == ExitPrice(inp, k)
    ensures SpecClosed(inp, k).trade == SpecTrade(inp, k)
  {
  }

  lemma BalanceStep(inp: Input, j: nat)
    ensures BalanceBefore(inp, j + 1)
            == BalanceBefore(inp, j) + TotalPnl(ClosedOf(inp, LeavingAt(inp, j, j)))
  {
    RealisedSettles(inp, j + 1, j + 1, j);
    RealisedStep(inp, j, j);
  }

  // ----- reversing the report -----

  lemma ClosedReversed(inp: Input, ks: seq<nat>)
    requires AllAccepted(inp, ks)
    ensures AllAccepted(inp, Reverse(ks))
    ensures Reverse(ClosedOf(inp, ks)) == ClosedOf(inp, Reverse(ks))
    ensures TotalPnl(Reverse(ClosedOf(inp, ks))) == TotalPnl(ClosedOf(inp, ks))
  {
    hide Accepted, SpecClosed, ClosedOf, TotalPnl, Reverse;
    var cs := ClosedOf(inp, ks);
    ReverseElements(ks);
    ReverseElements(cs);
    TotalReverse(cs);
  }

  lemma ClosedConcat(inp: Input, a: seq<nat>, b: seq<nat>)
    requires AllAccepted(inp, a) && AllAccepted(inp, b)
    ensures AllAccepted(inp, a + b)
    ensures ClosedOf(inp, a + b) == ClosedOf(inp, a) + ClosedOf(inp, b)
  {
    AcceptedConcat(inp, a, b);
    hide Accepted, SpecClosed, AllAccepted;
  }

  lemma AcceptedConcat(inp: Input, a: seq<nat>, b: seq<nat>)
    requires AllAccepted(inp, a) && AllAccepted(inp, b)
    ensures AllAccepted(inp, a + b)
  {
    hide Accepted;
  }

  /** The booked balance before candle `j` is the specified one. */
  lemma {:induction false} BalanceIsBooked(inp: Input, j: nat)
    ensures BalanceBefore(inp, j)
            == inp.initialBalance + TotalPnl(ClosedOf(inp, ClosedBefore(inp, j)))
  {
    hide *;
    if j == 0 {
      BookedStart(inp);
    } else {
      BalanceIsBooked(inp, j - 1);
      BalanceStep(inp, j - 1);
      BookedStep(inp, j - 1);
    }
  }

  lemma BookedStart(inp: Input)
    ensures BalanceBefore(inp, 0) == inp.initialBalance
    ensures ClosedBefore(inp, 0) == [] && TotalPnl(ClosedOf(inp, [])) == 0
  {
  }

  lemma BookedStep(inp: Input, j: nat)
    ensures TotalPnl(ClosedOf(inp, ClosedBefore(inp, j + 1)))
            == TotalPnl(ClosedOf(inp, ClosedBefore(inp, j))) + TotalPnl(ClosedOf(inp, LeavingAt(inp, j, j)))
  {
    hide Accepted, ExitIndex, SpecClosed, TotalPnl, ClosedOf, LeavingAt, Reverse, AllAccepted;
    var ks, before := LeavingAt(inp, j, j), ClosedBefore(inp, j);
    ClosedReversed(inp, ks);
    ClosedConcat(inp, before, Reverse(ks));
    TotalConcat(ClosedOf(inp, before), ClosedOf(inp, Reverse(ks)));
  }

  /** What one candle does to the open positions, the report and the balance. */
  lemma CandleStep(inp: Input, j: nat)
    requires j < |inp.candles|
    ensures var was := TradesOf(inp, OpenBefore(inp, j, j));
            var c := inp.candles[j];
            && Survivors(was, c) == TradesOf(inp, OpenBefore(inp, j + 1, j))
            && ClosedOf(inp, ClosedBefore(inp, j)) + Reverse(Triggered(was, c, BalanceBefore(inp, j)))
               == ClosedOf(inp, ClosedBefore(inp, j + 1))
    ensures var open := TradesOf(inp, OpenBefore(inp, j + 1, j));
            TradesOf(inp, OpenBefore(inp, j + 1, j + 1))
            == if Accepted(inp, j) then open + [SpecTrade(inp, j)] else open
    ensures BalanceBefore(inp, j + 1) == BalanceAtSignal(inp, j)
  {
    hide Accepted, ExitIndex, Pnl, SpecClosed, SpecTrade, Survivors, Triggered;
    PassOnOpen(inp, j, j);
    ClosedReversed(inp, LeavingAt(inp, j, j));
    ClosedConcat(inp, ClosedBefore(inp, j), Reverse(LeavingAt(inp, j, j)));
    RealisedSettles(inp, j + 1, j + 1, j);
    if Accepted(inp, j) {
      OneMore(inp, OpenBefore(inp, j + 1, j), j);
    }
  }

  /** What closing the leftovers does. */
  lemma EndStep(inp: Input)
    requires inp.candles != []
    ensures var n := |inp.candles|;
            ClosedOf(inp, ClosedBefore(inp, n))
            + EndClosed(TradesOf(inp, OpenBefore(inp, n, n)), inp.candles[n - 1], BalanceBefore(inp, n))
            == ClosedOf(inp, ReportOrder(inp))
  {
    hide Accepted, ExitIndex, SpecClosed;
    var n := |inp.candles|;
    EndPass(inp, n);
    ClosedConcat(inp, ClosedBefore(inp, n), LeavingAt(inp, n, n));
  }

  // ----- filter counters -----

  ghost predicate CountsReasons(inp: Input, m: nat, reasons: map<string, nat>)
    requires m <= |inp.candles|
  {
    && (forall reason :: reason in reasons ==> reasons[reason] == FilteredFor(inp, reason, m) > 0)
    && (forall reason :: reason !in reasons ==> FilteredFor(inp, reason, m) == 0)
  }

  method CountSignal(result: Option<StrategyResult>, before: nat, after: nat, reasons: map<string, nat>)
    returns (before': nat, after': nat, reasons': map<string, nat>)
    ensures result.Some? && result.value.shouldCreateSignal
            ==> before' == before + 1 && after' == after + 1 && reasons' == reasons
    ensures result.Some? && Filtered(result.value)
            ==> before' == before + 1 && after' == after
                && reasons' == reasons[result.value.reason :=
                     (if result.value.reason in reasons then reasons[result.value.reason] else 0) + 1]
    ensures result.None? || !(result.value.shouldCreateSignal || Filtered(result.value))
            ==> before' == before && after' == after && reasons' == reasons
  {
    before', after', reasons' := before, after, reasons;
    if result.Some? && result.value.shouldCreateSignal {
      before' := before' + 1;
      after' := after' + 1;
    } else if result.Some? && "NO_SIGNAL:" <= result.value.reason {
      var reason := result.value.reason;
      if Contains(reason, "ranging") || Contains(reason, "multi-timeframe")
         || Contains(reason, "nearest resistance") || Contains(reason, "nearest support") {
        before' := before' + 1;
        reasons' := reasons'[reason := (if reason in reasons' then reasons'[reason] else 0) + 1];
      }
    }
  }

  /** The position opened after candle `index`, if the signal there is usable. */
  method NewTrade(inp: Input, index: nat, result: Option<StrategyResult>, balance: int)
    returns (trade: Option<Trade>)
    requires index < |inp.candles| && result == SignalAt(inp, index)
    requires balance == BalanceAtSignal(inp, index)
    ensures trade.Some? <==> Accepted(inp, index)
    ensures trade.Some? ==> trade.value == SpecTrade(inp, index)
  {
    if result.None? || !result.value.shouldCreateSignal || index + 2 >= |inp.candles|
       || (result.value.direction != SignalBuy && result.value.direction != SignalSell) {
      return None;
    }
    if result.value.stopLoss.None? || result.value.takeProfit.None? {
      return None;
    }
    var next := inp.candles[index + 1];
    var stopLoss := result.value.stopLoss.value;
    var riskPerUnit := AbsInt(next.close - stopLoss);
    if riskPerUnit <= 0 {
      return None;
    }
    return Some(Trade(
      if result.value.direction == SignalBuy then Buy else Sell,
      next.close, stopLoss, result.value.takeProfit.value,
      PositionSize(balance, RiskPercent(inp), riskPerUnit),
      next.timestamp));
  }

  lemma ReasonStep(inp: Input, j: nat, reasons: map<string, nat>)
    requires j < |inp.candles| && CountsReasons(inp, j, reasons)
    ensures var r := SignalAt(inp, j);
            CountsReasons(inp, j + 1,
              if r.Some? && Filtered(r.value) then
                reasons[r.value.reason := (if r.value.reason in reasons then reasons[r.value.reason] else 0) + 1]
              else reasons)
  {
    hide Filtered, SignalAt;
  }

  lemma RunStart(inp: Input)
    ensures OpenBefore(inp, 0, 0) == [] && TradesOf(inp, []) == []
    ensures ClosedBefore(inp, 0) == [] && ClosedOf(inp, []) == []
    ensures RunningBalances(inp.initialBalance, []) == [inp.initialBalance]
    ensures CountsReasons(inp, 0, map[])
    ensures inp.candles == [] ==> ReportOrder(inp) == []
  {
  }

  // ----- the whole run -----

  method Run(inp: Input) returns (report: Report)
    ensures report.trades == ClosedOf(inp, ReportOrder(inp))
    ensures report.balanceHistory == RunningBalances(inp.initialBalance, report.trades)
    ensures report.signalsAfterFilters == CreatedCount(inp, |inp.candles|)
    ensures report.signalsBeforeFilters
            == CreatedCount(inp, |inp.candles|) + FilteredCount(inp, |inp.candles|)
    ensures report.filteredSignals == FilteredCount(inp, |inp.candles|)
    ensures CountsReasons(inp, |inp.candles|, report.filterReasons)
  {
    hide Accepted, ExitIndex, SpecTrade, TradesOf, ClosedOf, OpenBefore, ClosedBefore, LeavingAt,
      Survivors, Triggered, RunningBalances, BalanceBefore, Realised, CountsReasons, Filtered, EndClosed,
      ReportOrder, SpecClosed, AllAccepted, TotalPnl, Reverse, RiskPercent;
    var n := |inp.candles|;
    var open := new OpenTrades();
    var trades: seq<ClosedTrade> := [];
    var history := [inp.initialBalance];
    var balance := inp.initialBalance;
    var before, after := 0, 0;
    var reasons: map<string, nat> := map[];
    RunStart(inp);
    for index := 0 to n
      invariant fresh(open)
      invariant open.items == TradesOf(inp, OpenBefore(inp, index, index))
      invariant trades == ClosedOf(inp, ClosedBefore(inp, index))
      invariant history == RunningBalances(inp.initialBalance, trades)
      invariant balance == history[|trades|]
      invariant after == CreatedCount(inp, index)
      invariant before == CreatedCount(inp, index) + FilteredCount(inp, index)
      invariant CountsReasons(inp, index, reasons)
    {
      CandleStep(inp, index);
      BalanceIsBooked(inp, index);
      BalanceIsBooked(inp, index + 1);
      ReasonStep(inp, index, reasons);
      var closed := CloseTriggeredTrades(open, inp.candles[index], balance);
      trades, history, balance := Book(inp.initialBalance, trades, history, balance, closed);

      var result := inp.strategy(inp.candles[..index + 1]);
      before, after, reasons := CountSignal(result, before, after, reasons);

      var trade := NewTrade(inp, index, result, balance);
      if trade.Some? {
        open.items := open.items + [trade.value];
      }
    }
    if n > 0 {
      EndStep(inp);
      BalanceIsBooked(inp, n);
      var closed := CloseRemainingTrades(open, inp.candles[n - 1], balance);
      trades, history, balance := Book(inp.initialBalance, trades, history, balance, closed);
    }
    report := Report(trades, history, before, after,
                     if before > after then before - after else 0, reasons);
  }
}
