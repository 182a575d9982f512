/** The EMA trend strategy and how its rounded levels meet the risk agent.
    Prices and the ATR are integers in units of 10^-8; multipliers are reals. */
module EmaTrendStrategy {
  import opened Market
  import opened Numbers
  import opened Rounding
  import opened RiskAgent
  import Backtest = BacktestSpec
  import BacktestLaws

  datatype Indicators = Indicators(
    ema20: Option<int>,
    ema50: Option<int>,
    ema200: Option<int>,
    rsi14: Option<real>,
    atr14: Option<int>)

  datatype Context = Context(
    indicators: Indicators,
    isRanging: bool,
    mtfConflicted: bool,
    nearestSupport: Option<int>,
    nearestResistance: Option<int>,
    close: int)

  /** Parameters after defaults and configuration are applied. */
  datatype Settings = Settings(
    rsiBuyMin: real, rsiBuyMax: real, rsiSellMin: real, rsiSellMax: real,
    blockRangingMarket: bool, blockMtfConflict: bool,
    slMultiplier: real, tpMultiplier: real)

  datatype Decision =
    | NoSignal(reason: string)
    | Signal(direction: TradeDirection, entryPrice: int, stopLoss: int, takeProfit: int)

  function RoundPrice(x: real): int
  {
    Round(x)
  }

  /** How far from the entry a level is placed, before rounding. */
  function Offset(atr: int, multiplier: real): real
  {
    atr as real * multiplier
  }

  function Below(entryPrice: int, offset: real): int
  {
    RoundPrice(entryPrice as real - offset)
  }

  function Above(entryPrice: int, offset: real): int
  {
    RoundPrice(entryPrice as real + offset)
  }

  predicate TooCloseToResistance(resistance: Option<int>, entryPrice: int)
  {
    && resistance.Some? && resistance.value > entryPrice
    && (resistance.value - entryPrice) as real <= 0.003 * entryPrice as real
  }

  predicate TooCloseToSupport(support: Option<int>, entryPrice: int)
  {
    && support.Some? && support.value < entryPrice
    && (entryPrice - support.value) as real <= 0.003 * entryPrice as real
  }

  predicate Complete(i: Indicators)
  {
    i.ema20.Some? && i.ema50.Some? && i.ema200.Some? && i.rsi14.Some? && i.atr14.Some?
  }

  /** The reason a filter gives: the marker, and the cause in its sentence. */
  function Reason(before: string, cause: string, after: string): string
  {
    "NO_SIGNAL:" + before + cause + after
  }

  /** Entry prices are positive, so the relative distances divide by them. */
  function Evaluate(c: Context, p: Settings): Decision
    requires c.close > 0
  {
    if !Complete(c.indicators) then NoSignal("Missing indicators")
    else if p.blockRangingMarket && c.isRanging then NoSignal(Reason(" market regime is ", "ranging", ""))
    else if p.blockMtfConflict && c.mtfConflicted then
      NoSignal(Reason(" ", "multi-timeframe", " alignment is conflicted"))
    else
      var ema20, ema50, ema200 := c.indicators.ema20.value, c.indicators.ema50.value, c.indicators.ema200.value;
      var rsi, atr := c.indicators.rsi14.value, c.indicators.atr14.value;
      if ema20 > ema50 > ema200 && p.rsiBuyMin <= rsi <= p.rsiBuyMax then
        if TooCloseToResistance(c.nearestResistance, c.close) then
          NoSignal(Reason(" price is too close to ", "nearest resistance", ""))
        else
          Signal(Buy, c.close, Below(c.close, Offset(atr, p.slMultiplier)),
                 Above(c.close, Offset(atr, p.tpMultiplier)))
      else if ema20 < ema50 < ema200 && p.rsiSellMin <= rsi <= p.rsiSellMax then
        if TooCloseToSupport(c.nearestSupport, c.close) then
          NoSignal(Reason(" price is too close to ", "nearest support", ""))
        else
          Signal(Sell, c.close, Above(c.close, Offset(atr, p.slMultiplier)),
                 Below(c.close, Offset(atr, p.tpMultiplier)))
      else
        NoSignal(if ema20 > ema50 > ema200 || ema20 < ema50 < ema200
                 then "NO_SIGNAL: RSI14 does not confirm the aligned EMA trend"
                 else "NO_SIGNAL: EMAs are not aligned")
  }

  // ----- when there is a signal -----

  /** All indicators are there and neither filter that is switched on objects. */
  predicate MayTrade(c: Context, p: Settings)
  {
    && c.indicators.ema20.Some? && c.indicators.ema50.Some? && c.indicators.ema200.Some?
    && c.indicators.rsi14.Some? && c.indicators.atr14.Some?
    && !(p.blockRangingMarket && c.isRanging) && !(p.blockMtfConflict && c.mtfConflicted)
  }

  /** A BUY needs the averages stacked upwards, the RSI in the buy range and no
      resistance within 0.3% above the price; a SELL is the mirror image; there
      is no other signal. */
  lemma SignalsExactlyWhen(c: Context, p: Settings)
    requires c.close > 0
    ensures var d, i, price := Evaluate(c, p), c.indicators, c.close as real;
            && (d.Signal? && d.direction.Buy? <==>
                  && MayTrade(c, p)
                  && i.ema200.value < i.ema50.value < i.ema20.value
                  && p.rsiBuyMin <= i.rsi14.value <= p.rsiBuyMax
                  && !(c.nearestResistance.Some?
                       && price < c.nearestResistance.value as real <= price + 0.003 * price))
            && (d.Signal? && d.direction.Sell? <==>
                  && MayTrade(c, p)
                  && i.ema20.value < i.ema50.value < i.ema200.value
                  && p.rsiSellMin <= i.rsi14.value <= p.rsiSellMax
                  && !(c.nearestSupport.Some?
                       && price - 0.003 * price <= c.nearestSupport.value as real < price))
  {
    hide Below, Above, Offset;
  }

  /** A filter stands between a complete set of indicators and a signal. */
  predicate FilteredOut(c: Context, p: Settings)
  {
    && Complete(c.indicators)
    && ((p.blockRangingMarket && c.isRanging) || (p.blockMtfConflict && c.mtfConflicted)
        || (RisingTrend(c, p) && TooCloseToResistance(c.nearestResistance, c.close))
        || (FallingTrend(c, p) && TooCloseToSupport(c.nearestSupport, c.close)))
  }

  predicate RisingTrend(c: Context, p: Settings)
    requires Complete(c.indicators)
  {
    var i := c.indicators;
    i.ema20.value > i.ema50.value > i.ema200.value && p.rsiBuyMin <= i.rsi14.value <= p.rsiBuyMax
  }

  predicate FallingTrend(c: Context, p: Settings)
    requires Complete(c.indicators)
  {
    var i := c.indicators;
    i.ema20.value < i.ema50.value < i.ema200.value && p.rsiSellMin <= i.rsi14.value <= p.rsiSellMax
  }

  /** What a filter refuses, a backtest counts as filtered. */
  lemma FilteredIsCounted(c: Context, p: Settings)
    requires c.close > 0 && FilteredOut(c, p)
    ensures Evaluate(c, p).NoSignal?
    ensures Backtest.Filtered(Backtest.StrategyResult(SignalNone, None, None, Evaluate(c, p).reason, false))
  {
    FilterReason(c, p);
    hide Evaluate, FilteredOut, Reason;
    var d := Evaluate(c, p);
    if d.reason == Reason(" market regime is ", "ranging", "") {
      CauseNamed(" market regime is ", "ranging", "");
    } else if d.reason == Reason(" ", "multi-timeframe", " alignment is conflicted") {
      CauseNamed(" ", "multi-timeframe", " alignment is conflicted");
    } else if d.reason == Reason(" price is too close to ", "nearest resistance", "") {
      CauseNamed(" price is too close to ", "nearest resistance", "");
    } else {
      CauseNamed(" price is too close to ", "nearest support", "");
    }
  }

  lemma FilterReason(c: Context, p: Settings)
    requires c.close > 0 && FilteredOut(c, p)
    ensures var d := Evaluate(c, p);
            && d.NoSignal?
            && (|| d.reason == Reason(" market regime is ", "ranging", "")
                || d.reason == Reason(" ", "multi-timeframe", " alignment is conflicted")
                || d.reason == Reason(" price is too close to ", "nearest resistance", "")
                || d.reason == Reason(" price is too close to ", "nearest support", ""))
  {
    hide Below, Above, Offset, Reason;
  }

  lemma CauseNamed(before: string, cause: string, after: string)
    requires cause in {"ranging", "multi-timeframe", "nearest resistance", "nearest support"}
    ensures Backtest.Filtered(Backtest.StrategyResult(SignalNone, None, None, Reason(before, cause, after), false))
  {
    var reason := Reason(before, cause, after);
    BacktestLaws.FilteredExactlyWhen(Backtest.StrategyResult(SignalNone, None, None, reason, false));
    hide Backtest.Filtered;
    assert reason == "NO_SIGNAL:" + (before + cause + after);
    assert reason == ("NO_SIGNAL:" + before) + cause + after;
  }

  /** Its stop lies on the losing side of the entry and its target on the winning
      side, each the ATR times its multiplier away, to the nearest unit. */
  lemma LevelsOfSignal(c: Context, p: Settings)
    requires c.close > 0 && Evaluate(c, p).Signal?
    ensures Complete(c.indicators)
    ensures var d, atr := Evaluate(c, p), c.indicators.atr14.value as real;
            var side := if d.direction.Buy? then 1.0 else -1.0;
            && d.entryPrice == c.close
            && NearestUnit(d.stopLoss, c.close, -side, atr, p.slMultiplier)
            && NearestUnit(d.takeProfit, c.close, side, atr, p.tpMultiplier)
  {
    SignalShape(c, p);
    var d, atr := Evaluate(c, p), c.indicators.atr14.value;
    hide Evaluate, Below, Above, Offset, NearestUnit;
    Placed(c.close, atr, p.slMultiplier);
    Placed(c.close, atr, p.tpMultiplier);
  }

  /** `level` is the entry moved by `side * atr * multiplier`, to the nearest unit. */
  predicate NearestUnit(level: int, entryPrice: int, side: real, atr: real, multiplier: real)
  {
    Abs(level as real - (entryPrice as real + side * (atr * multiplier))) <= 0.5
  }

  lemma Placed(entryPrice: int, atr: int, multiplier: real)
    ensures NearestUnit(Below(entryPrice, Offset(atr, multiplier)), entryPrice, -1.0, atr as real, multiplier)
    ensures NearestUnit(Above(entryPrice, Offset(atr, multiplier)), entryPrice, 1.0, atr as real, multiplier)
  {
    var offset := atr as real * multiplier;
    assert -1.0 * offset == -offset && 1.0 * offset == offset;
  }

  // ----- distances after rounding -----

  /** Rounding a level moves its distance from an entry on the grid by at most
      half a unit. */
  lemma LevelDistance(entryPrice: int, x: real)
    requires x >= 0.0
    ensures Abs(AbsInt(entryPrice - Below(entryPrice, x)) as real - x) <= 0.5
    ensures Abs(AbsInt(entryPrice - Above(entryPrice, x)) as real - x) <= 0.5
  {
    RoundMonotone(entryPrice as real - x, entryPrice as real);
    RoundMonotone(entryPrice as real, entryPrice as real + x);
    RoundOnGrid(entryPrice);
  }

  /** The stop and target distances the risk agent will measure. */
  function StopDistance(d: Decision): nat
    requires d.Signal?
  {
    AbsInt(d.entryPrice - d.stopLoss)
  }

  function TargetDistance(d: Decision): nat
    requires d.Signal?
  {
    AbsInt(d.takeProfit - d.entryPrice)
  }

  lemma SignalShape(c: Context, p: Settings)
    requires c.close > 0 && Evaluate(c, p).Signal?
    ensures Complete(c.indicators)
    ensures var d, atr := Evaluate(c, p), c.indicators.atr14.value;
            var stop, target := Offset(atr, p.slMultiplier), Offset(atr, p.tpMultiplier);
            && d.entryPrice == c.close
            && d.stopLoss == (if d.direction.Buy? then Below(c.close, stop) else Above(c.close, stop))
            && d.takeProfit == (if d.direction.Buy? then Above(c.close, target) else Below(c.close, target))
  {
    hide Below, Above, Offset;
  }

  lemma SignalDistances(c: Context, p: Settings)
    requires c.close > 0 && Evaluate(c, p).Signal?
    requires c.indicators.atr14.value >= 0 && p.slMultiplier >= 0.0 && p.tpMultiplier >= 0.0
    ensures var d, atr := Evaluate(c, p), c.indicators.atr14.value;
            && Offset(atr, p.slMultiplier) >= 0.0 && Offset(atr, p.tpMultiplier) >= 0.0
            && Abs(StopDistance(d) as real - Offset(atr, p.slMultiplier)) <= 0.5
            && Abs(TargetDistance(d) as real - Offset(atr, p.tpMultiplier)) <= 0.5
  {
    var atr := c.indicators.atr14.value;
    SignalShape(c, p);
    OffsetSign(atr, p.slMultiplier);
    OffsetSign(atr, p.tpMultiplier);
    hide Evaluate, Below, Above, Offset;
    LevelDistance(c.close, Offset(atr, p.slMultiplier));
    LevelDistance(c.close, Offset(atr, p.tpMultiplier));
  }

  lemma OffsetSign(atr: int, multiplier: real)
    requires atr >= 0 && multiplier >= 0.0
    ensures Offset(atr, multiplier) >= 0.0
  {
  }

  /** The interval half-unit rounding leaves around target / stop. */
  predicate RatioBounds(ratio: real, target: real, stop: real, minRatio: real)
    requires stop >= 0.0
  {
    && ratio >= (target - 0.5) / (stop + 0.5)
    && (stop > 0.5 ==> ratio <= (target + 0.5) / (stop - 0.5))
    && (Guaranteed(target, stop, minRatio) ==> ratio >= minRatio)
  }

  /** Even the worst rounding of both levels leaves the required ratio. */
  predicate Guaranteed(target: real, stop: real, minRatio: real)
  {
    minRatio >= 0.0 && target - 0.5 >= minRatio * (stop + 0.5)
  }

  /** The interval the risk agent's ratio lies in, whatever the prices, and so
      when its reward/risk check can never reject the strategy's signals. */
  lemma RewardRiskInterval(c: Context, p: Settings, account: AccountState, profile: RiskProfile)
    requires c.close > 0 && Evaluate(c, p).Signal?
    requires c.indicators.atr14.value >= 0 && p.slMultiplier >= 0.0 && p.tpMultiplier >= 0.0
    ensures var d, atr := Evaluate(c, p), c.indicators.atr14.value;
            var stop, target := Offset(atr, p.slMultiplier), Offset(atr, p.tpMultiplier);
            var v := EvaluateSignal(d.entryPrice, Some(d.stopLoss), Some(d.takeProfit), account, profile);
            && stop >= 0.0
            && (v.Verdict? <==> StopDistance(d) > 0)
            && (v.Verdict? ==>
                  && RatioBounds(v.riskRewardRatio, target, stop, profile.minRiskRewardRatio)
                  && (Guaranteed(target, stop, profile.minRiskRewardRatio) ==>
                        LowRiskReward !in RejectionReasons(account, profile, v.monetaryRisk, v.riskRewardRatio)))
  {
    SignalDistances(c, p);
    var d, atr := Evaluate(c, p), c.indicators.atr14.value;
    MeasuredRatio(d, account, profile);
    hide *;
    if StopDistance(d) > 0 {
      var stop, target := Offset(atr, p.slMultiplier), Offset(atr, p.tpMultiplier);
      var ratio := TargetDistance(d) as real / StopDistance(d) as real;
      RatioInterval(TargetDistance(d) as real, StopDistance(d) as real, target, stop, profile.minRiskRewardRatio);
      if Guaranteed(target, stop, profile.minRiskRewardRatio) {
        GuaranteeHolds(ratio, target, stop, profile.minRiskRewardRatio);
      }
    }
  }

  lemma MeasuredRatio(d: Decision, account: AccountState, profile: RiskProfile)
    requires d.Signal?
    ensures var v := EvaluateSignal(d.entryPrice, Some(d.stopLoss), Some(d.takeProfit), account, profile);
            && (v.Verdict? <==> StopDistance(d) > 0)
            && (v.Verdict? ==>
                  && v.riskRewardRatio == TargetDistance(d) as real / StopDistance(d) as real
                  && (v.riskRewardRatio >= profile.minRiskRewardRatio ==>
                        LowRiskReward !in RejectionReasons(account, profile, v.monetaryRisk, v.riskRewardRatio)))
  {
  }

  lemma GuaranteeHolds(ratio: real, target: real, stop: real, minRatio: real)
    requires stop >= 0.0 && RatioBounds(ratio, target, stop, minRatio) && Guaranteed(target, stop, minRatio)
    ensures ratio >= minRatio
  {
  }

  lemma RatioInterval(t: real, s: real, target: real, stop: real, minRatio: real)
    requires s >= 1.0 && t >= 0.0 && stop >= 0.0 && target >= 0.0
    requires Abs(s - stop) <= 0.5 && Abs(t - target) <= 0.5
    ensures RatioBounds(t / s, target, stop, minRatio)
  {
    DivideBounds(t, s, target - 0.5, stop + 0.5);
    if stop > 0.5 {
      Cross(t, s, target + 0.5, stop - 0.5);
    }
    if Guaranteed(target, stop, minRatio) {
      WorstRatio(t, s, minRatio, stop + 0.5);
    }
  }

  lemma WorstRatio(t: real, s: real, minRatio: real, worst: real)
    requires 0.0 < s <= worst && minRatio >= 0.0 && t >= minRatio * worst
    ensures t / s >= minRatio
  {
    NonNegativeProduct(minRatio, worst - s);
    assert minRatio * (worst - s) == minRatio * worst - minRatio * s;
    QuotientAtLeast(t, minRatio, s);
  }

  lemma DivideBounds(t: real, s: real, a: real, b: real)
    requires 0.0 < s <= b && a <= t && t >= 0.0
    ensures t / s >= a / b
  {
    var r := a / b;
    assert r * b == a;
    if r >= 0.0 {
      NonNegativeProduct(r, b - s);
      assert r * (b - s) == r * b - r * s;
    } else {
      NonNegativeProduct(-r, s);
      assert -r * s == -(r * s);
    }
    QuotientAtLeast(t, r, s);
  }

  lemma Cross(t: real, s: real, a: real, b: real)
    requires 0.0 < b <= s && 0.0 <= t <= a
    ensures t / s <= a / b
  {
    DivideBounds(a, b, t, s);
  }

  // ----- the default multipliers -----

  predicate Defaults(p: Settings)
  {
    p.slMultiplier == 1.5 && p.tpMultiplier == 3.0
  }

  /** With the default multipliers 1.5 and 3 a ratio of 2 sits on the boundary.
      An even ATR gives exactly 2.  With an odd ATR the stop lies half a unit
      off the grid: a BUY stop is rounded towards the entry as long as it is
      positive, a SELL stop away from it, and then the ratio is below 2. */
  lemma DefaultsMeetTwoExactlyWhen(c: Context, p: Settings, account: AccountState, profile: RiskProfile)
    requires c.close > 0 && Defaults(p) && Evaluate(c, p).Signal? && c.indicators.atr14.value > 0
    requires profile.minRiskRewardRatio == 2.0
    ensures var d, atr := Evaluate(c, p), c.indicators.atr14.value;
            var v := EvaluateSignal(d.entryPrice, Some(d.stopLoss), Some(d.takeProfit), account, profile);
            && v.Verdict?
            && (v.riskRewardRatio >= 2.0
                <==> atr % 2 == 0 || (d.direction.Buy? && 2 * c.close > 3 * atr))
            && (LowRiskReward in RejectionReasons(account, profile, v.monetaryRisk, v.riskRewardRatio)
                <==> !(v.riskRewardRatio >= 2.0))
  {
    var d, atr := Evaluate(c, p), c.indicators.atr14.value;
    DefaultDistances(c, p);
    var t, s := TargetDistance(d), StopDistance(d);
    assert t == 3 * atr;
    RatioAtLeastTwo(t, s);
    hide Evaluate, Round;
  }

  lemma RatioAtLeastTwo(t: nat, s: nat)
    requires s > 0
    ensures t as real / s as real >= 2.0 <==> t >= 2 * s
  {
    assert 2.0 * s as real == (2 * s) as real;
    if t >= 2 * s {
      QuotientAtLeast(t as real, 2.0, s as real);
    } else {
      QuotientBelow(t as real, 2.0, s as real);
    }
  }

  /** Distances in units: the target is 3 ATR; twice the stop is 3 ATR, or one
      unit more or less when that is odd. */
  lemma DefaultDistances(c: Context, p: Settings)
    requires c.close > 0 && Defaults(p) && Evaluate(c, p).Signal? && c.indicators.atr14.value > 0
    ensures var d, atr := Evaluate(c, p), c.indicators.atr14.value;
            && TargetDistance(d) == 3 * atr
            && StopDistance(d) > 0
            && 2 * StopDistance(d) == (if atr % 2 == 0 then 3 * atr
                                       else if d.direction.Buy? && 2 * c.close > 3 * atr then 3 * atr - 1
                                       else 3 * atr + 1)
  {
    var atr := c.indicators.atr14.value;
    SignalShape(c, p);
    DefaultOffsets(atr);
    TargetLevels(c.close, atr);
    StopLevels(c.close, atr);
    hide Evaluate, Below, Above, Offset;
  }

  lemma DefaultOffsets(atr: int)
    ensures Offset(atr, 3.0) == (3 * atr) as real
    ensures Offset(atr, 1.5) == (3 * atr) as real / 2.0
  {
  }

  lemma TargetLevels(close: int, atr: int)
    ensures Below(close, (3 * atr) as real) == close - 3 * atr
    ensures Above(close, (3 * atr) as real) == close + 3 * atr
  {
    RoundOnGrid(close + 3 * atr);
    RoundOnGrid(close - 3 * atr);
  }

  lemma StopLevels(close: int, atr: int)
    requires atr > 0
    ensures var below, above := Below(close, (3 * atr) as real / 2.0), Above(close, (3 * atr) as real / 2.0);
            if atr % 2 == 0 then 2 * (close - below) == 3 * atr && 2 * (above - close) == 3 * atr
            else
              && 2 * (close - below) == (if 2 * close > 3 * atr then 3 * atr - 1 else 3 * atr + 1)
              && (close >= 0 ==> 2 * (above - close) == 3 * atr + 1)
  {
    var half := (3 * atr) / 2;
    if atr % 2 == 0 {
      assert (3 * atr) as real / 2.0 == half as real;
      RoundOnGrid(close - half);
      RoundOnGrid(close + half);
    } else {
      assert (3 * atr) as real / 2.0 == half as real + 0.5;
      RoundHalf(close - half - 1);
      RoundHalf(close + half);
      assert close as real - (3 * atr) as real / 2.0 == (close - half - 1) as real + 0.5;
      assert close as real + (3 * atr) as real / 2.0 == (close + half) as real + 0.5;
    }
  }

  lemma RoundHalf(n: int)
    ensures Round(n as real + 0.5) == if n >= 0 then n + 1 else n
  {
  }
}
