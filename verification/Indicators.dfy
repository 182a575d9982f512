/** The backtest's indicators.  Each is recomputed over the whole prefix; each
    is proved to be a smoothing state updated by one step per candle, and to
    stay within the range of what it smooths. */
module Indicators {
  import opened Market
  import opened Numbers
  import opened Rounding

  // ----- smoothing states -----

  function EmaStep(ema: real, x: real, period: nat): real
    requires period > 0
  {
    (x - ema) * (2.0 / (period + 1) as real) + ema
  }

  function WilderStep(average: real, x: real, period: nat): real
    requires period > 0
  {
    (average * (period - 1) as real + x) / period as real
  }

  function Average(sum: real, period: nat): real
    requires period > 0
  {
    sum / period as real
  }

  /** The mean of the first `period` values, then one EMA step per value. */
  function EmaState(xs: seq<real>, period: nat): real
    requires 0 < period <= |xs|
  {
    if |xs| == period then Average(SumReals(xs), period)
    else EmaStep(EmaState(xs[..|xs| - 1], period), xs[|xs| - 1], period)
  }

  /** The mean of the first `period` values, then one Wilder step per value. */
  function WilderState(xs: seq<real>, period: nat): real
    requires 0 < period <= |xs|
  {
    if |xs| == period then Average(SumReals(xs), period)
    else WilderStep(WilderState(xs[..|xs| - 1], period), xs[|xs| - 1], period)
  }

  lemma SumSnoc(xs: seq<real>, i: nat)
    requires i < |xs|
    ensures SumReals(xs[..i + 1]) == SumReals(xs[..i]) + xs[i]
  {
    assert xs[..i + 1][..i] == xs[..i];
  }

  lemma EmaSnoc(xs: seq<real>, i: nat, period: nat)
    requires 0 < period <= i < |xs|
    ensures EmaState(xs[..i + 1], period) == EmaStep(EmaState(xs[..i], period), xs[i], period)
  {
    assert xs[..i + 1][..i] == xs[..i];
  }

  lemma WilderSnoc(xs: seq<real>, i: nat, period: nat)
    requires 0 < period <= i < |xs|
    ensures WilderState(xs[..i + 1], period) == WilderStep(WilderState(xs[..i], period), xs[i], period)
  {
    assert xs[..i + 1][..i] == xs[..i];
    hide WilderStep;
  }

  lemma StateStarts(xs: seq<real>, period: nat)
    requires 0 < period <= |xs|
    ensures EmaState(xs[..period], period) == Average(SumReals(xs[..period]), period)
    ensures WilderState(xs[..period], period) == Average(SumReals(xs[..period]), period)
  {
  }

  predicate Within(xs: seq<real>, lo: real, hi: real)
  {
    forall i :: 0 <= i < |xs| ==> lo <= xs[i] <= hi
  }

  lemma {:induction false} SumWithin(xs: seq<real>, lo: real, hi: real)
    requires Within(xs, lo, hi)
    ensures lo * |xs| as real <= SumReals(xs) <= hi * |xs| as real
  {
    if xs != [] {
      var n := |xs| - 1;
      SumWithin(xs[..n], lo, hi);
      assert lo * (n + 1) as real == lo * n as real + lo;
      assert hi * (n + 1) as real == hi * n as real + hi;
    }
  }

  lemma MeanWithin(xs: seq<real>, lo: real, hi: real)
    requires xs != [] && Within(xs, lo, hi)
    ensures lo <= SumReals(xs) / |xs| as real <= hi
  {
    SumWithin(xs, lo, hi);
    DivideWithin(SumReals(xs), lo, hi, |xs| as real);
  }

  lemma DivideWithin(sum: real, lo: real, hi: real, n: real)
    requires n > 0.0 && lo * n <= sum <= hi * n
    ensures lo <= sum / n <= hi
  {
    QuotientAtLeast(sum, lo, n);
    QuotientAtMost(sum, hi, n);
  }

  lemma EmaStepWithin(ema: real, x: real, period: nat, lo: real, hi: real)
    requires period > 0 && lo <= ema <= hi && lo <= x <= hi
    ensures lo <= EmaStep(ema, x, period) <= hi
  {
    var k := 2.0 / (period + 1) as real;
    assert 0.0 < k <= 1.0;
    Convex(ema, x, k, lo, hi);
  }

  lemma Convex(a: real, x: real, k: real, lo: real, hi: real)
    requires 0.0 <= k <= 1.0 && lo <= a <= hi && lo <= x <= hi
    ensures lo <= (x - a) * k + a <= hi
  {
    assert (x - a) * k + a - lo == (x - lo) * k + (a - lo) * (1.0 - k);
    assert hi - ((x - a) * k + a) == (hi - x) * k + (hi - a) * (1.0 - k);
    NonNegativeProduct(x - lo, k);
    NonNegativeProduct(a - lo, 1.0 - k);
    NonNegativeProduct(hi - x, k);
    NonNegativeProduct(hi - a, 1.0 - k);
  }

  lemma WilderStepWithin(average: real, x: real, period: nat, lo: real, hi: real)
    requires period > 0 && lo <= average <= hi && lo <= x <= hi
    ensures lo <= WilderStep(average, x, period) <= hi
  {
    var p := (period - 1) as real;
    NonNegativeProduct(average - lo, p);
    NonNegativeProduct(hi - average, p);
    assert (average - lo) * p == average * p - lo * p;
    assert (hi - average) * p == hi * p - average * p;
    assert lo * (p + 1.0) == lo * p + lo && hi * (p + 1.0) == hi * p + hi;
    DivideWithin(average * p + x, lo, hi, p + 1.0);
  }

  lemma {:induction false} EmaWithin(xs: seq<real>, period: nat, lo: real, hi: real)
    requires 0 < period <= |xs| && Within(xs, lo, hi)
    ensures lo <= EmaState(xs, period) <= hi
  {
    if |xs| == period {
      MeanWithin(xs, lo, hi);
    } else {
      EmaWithin(xs[..|xs| - 1], period, lo, hi);
      EmaStepWithin(EmaState(xs[..|xs| - 1], period), xs[|xs| - 1], period, lo, hi);
    }
  }

  lemma {:induction false} WilderWithin(xs: seq<real>, period: nat, lo: real, hi: real)
    requires 0 < period <= |xs| && Within(xs, lo, hi)
    ensures lo <= WilderState(xs, period) <= hi
  {
    if |xs| == period {
      MeanWithin(xs, lo, hi);
    } else {
      WilderWithin(xs[..|xs| - 1], period, lo, hi);
      WilderStepWithin(WilderState(xs[..|xs| - 1], period), xs[|xs| - 1], period, lo, hi);
    }
  }

  // ----- the series -----

  function Closes(candles: seq<Candle>): (xs: seq<real>)
    ensures |xs| == |candles|
    ensures forall i :: 0 <= i < |xs| ==> xs[i] == candles[i].close as real
  {
    seq(|candles|, i requires 0 <= i < |candles| => candles[i].close as real)
  }

  function Gains(closes: seq<real>): (xs: seq<real>)
    requires closes != []
    ensures |xs| == |closes| - 1
    ensures forall i :: 0 <= i < |xs| ==> xs[i] == Max(closes[i + 1] - closes[i], 0.0)
  {
    seq(|closes| - 1, i requires 0 <= i < |closes| - 1 => Max(closes[i + 1] - closes[i], 0.0))
  }

  function Losses(closes: seq<real>): (xs: seq<real>)
    requires closes != []
    ensures |xs| == |closes| - 1
    ensures forall i :: 0 <= i < |xs| ==> xs[i] == Max(closes[i] - closes[i + 1], 0.0)
  {
    seq(|closes| - 1, i requires 0 <= i < |closes| - 1 => Max(closes[i] - closes[i + 1], 0.0))
  }

  function TrueRange(current: Candle, previous: Candle): real
  {
    Max(Max((current.high - current.low) as real, Abs((current.high - previous.close) as real)),
        Abs((current.low - previous.close) as real))
  }

  function TrueRanges(candles: seq<Candle>): (xs: seq<real>)
    requires candles != []
    ensures |xs| == |candles| - 1
    ensures forall i :: 0 <= i < |xs| ==> xs[i] == TrueRange(candles[i + 1], candles[i])
  {
    seq(|candles| - 1, i requires 0 <= i < |candles| - 1 => TrueRange(candles[i + 1], candles[i]))
  }

  function RsiOf(averageGain: real, averageLoss: real): real
    requires averageGain >= 0.0 && averageLoss >= 0.0
  {
    if averageLoss == 0.0 then 100.0
    else
      assert averageGain / averageLoss >= 0.0;
      100.0 - 100.0 / (1.0 + averageGain / averageLoss)
  }

  /** The RSI as it is returned: rounded to eight places. */
  function RsiUnits(averageGain: real, averageLoss: real): int
    requires averageGain >= 0.0 && averageLoss >= 0.0
  {
    Round(RsiOf(averageGain, averageLoss) * ONE as real)
  }

  lemma RsiUnitsWithoutLoss(averageGain: real)
    requires averageGain >= 0.0
    ensures RsiUnits(averageGain, 0.0) == 100 * ONE
  {
    assert 100.0 * ONE as real == (100 * ONE) as real;
    RoundOnGrid(100 * ONE);
  }

  // ----- the loops compute the states -----

  method Mean(xs: seq<real>, period: nat) returns (m: real)
    requires 0 < period <= |xs|
    ensures m == Average(SumReals(xs[..period]), period)
  {
    var sum := 0.0;
    for i := 0 to period
      invariant sum == SumReals(xs[..i])
    {
      SumSnoc(xs, i);
      sum := sum + xs[i];
    }
    m := Average(sum, period);
  }

  method Ema(candles: seq<Candle>, period: nat) returns (r: Option<int>)
    requires period > 0
    ensures r == if |candles| < period then None else Some(Round(EmaState(Closes(candles), period)))
  {
    hide EmaState, EmaStep, Average, SumReals, Round;
    if |candles| < period {
      return None;
    }
    var closes := Closes(candles);
    StateStarts(closes, period);
    var ema := Mean(closes, period);
    for i := period to |closes|
      invariant ema == EmaState(closes[..i], period)
    {
      EmaSnoc(closes, i, period);
      ema := EmaStep(ema, closes[i], period);
    }
    assert closes[..|closes|] == closes;
    return Some(Round(ema));
  }

  method Rsi(candles: seq<Candle>, period: nat) returns (r: Option<int>)
    requires period > 0
    ensures |candles| <= period ==> r == None
    ensures |candles| > period ==>
              var gain := WilderState(Gains(Closes(candles)), period);
              var loss := WilderState(Losses(Closes(candles)), period);
              gain >= 0.0 && loss >= 0.0 && r == Some(RsiUnits(gain, loss))
  {
    hide WilderState, WilderStep, Average, SumReals, RsiUnits, Closes, Gains, Losses;
    if |candles| <= period {
      return None;
    }
    var closes := Closes(candles);
    ghost var gs, ls := Gains(closes), Losses(closes);
    var gains, losses := 0.0, 0.0;
    SumOfNone(gs);
    SumOfNone(ls);
    for index := 1 to period + 1
      invariant gains == SumReals(gs[..index - 1]) && losses == SumReals(ls[..index - 1])
    {
      SumSnoc(gs, index - 1);
      SumSnoc(ls, index - 1);
      var change := closes[index] - closes[index - 1];
      gains := gains + Max(change, 0.0);
      losses := losses + Max(-change, 0.0);
    }
    StateStarts(gs, period);
    StateStarts(ls, period);
    var averageGain, averageLoss := Average(gains, period), Average(losses, period);
    for index := period + 1 to |closes|
      invariant averageGain == WilderState(gs[..index - 1], period)
      invariant averageLoss == WilderState(ls[..index - 1], period)
    {
      WilderSnoc(gs, index - 1, period);
      WilderSnoc(ls, index - 1, period);
      var change := closes[index] - closes[index - 1];
      averageGain := WilderStep(averageGain, Max(change, 0.0), period);
      averageLoss := WilderStep(averageLoss, Max(-change, 0.0), period);
    }
    assert gs[..|gs|] == gs && ls[..|ls|] == ls;
    AveragesNonNegative(closes, period);
    if averageLoss == 0.0 {
      RsiUnitsWithoutLoss(averageGain);
      return Some(100 * ONE);
    }
    return Some(RsiUnits(averageGain, averageLoss));
  }

  lemma SumOfNone(xs: seq<real>)
    ensures SumReals(xs[..0]) == 0.0
  {
  }

  method Atr(candles: seq<Candle>, period: nat) returns (r: Option<int>)
    requires period > 0
    ensures r == if |candles| <= period then None else Some(Round(WilderState(TrueRanges(candles), period)))
  {
    hide WilderState, WilderStep, Average, SumReals, Round, TrueRange;
    if |candles| <= period {
      return None;
    }
    var trueRanges: seq<real> := [];
    for index := 1 to |candles|
      invariant |trueRanges| == index - 1
      invariant forall i :: 0 <= i < index - 1 ==> trueRanges[i] == TrueRange(candles[i + 1], candles[i])
    {
      trueRanges := trueRanges + [TrueRange(candles[index], candles[index - 1])];
    }
    assert trueRanges == TrueRanges(candles);
    StateStarts(trueRanges, period);
    var atr := Mean(trueRanges, period);
    for i := period to |trueRanges|
      invariant atr == WilderState(trueRanges[..i], period)
    {
      WilderSnoc(trueRanges, i, period);
      atr := WilderStep(atr, trueRanges[i], period);
    }
    assert trueRanges[..|trueRanges|] == trueRanges;
    return Some(Round(atr));
  }

  // ----- one more candle is one more step -----

  /** Recomputing over a prefix one candle longer updates each smoothing state
      by one step on the new candle's value alone, from the first prefix that
      has the state: the EMA needs `period` closes, the others as many changes. */
  lemma OneStepUpdate(candles: seq<Candle>, next: Candle, period: nat)
    requires 0 < period <= |candles|
    ensures EmaState(Closes(candles + [next]), period)
            == EmaStep(EmaState(Closes(candles), period), next.close as real, period)
    ensures var last, longer := candles[|candles| - 1], candles + [next];
            var change := (next.close as real) - (last.close as real);
            period < |candles| ==>
              && WilderState(Gains(Closes(longer)), period)
                 == WilderStep(WilderState(Gains(Closes(candles)), period), Max(change, 0.0), period)
              && WilderState(Losses(Closes(longer)), period)
                 == WilderStep(WilderState(Losses(Closes(candles)), period), Max(-change, 0.0), period)
              && WilderState(TrueRanges(longer), period)
                 == WilderStep(WilderState(TrueRanges(candles), period), TrueRange(next, last), period)
  {
    hide EmaState, WilderState, EmaStep, WilderStep, Max, TrueRange, Gains, Losses, TrueRanges;
    var closes, ranges := Closes(candles), TrueRanges(candles);
    var change := (next.close as real) - (candles[|candles| - 1].close as real);
    ClosesGrow(candles, next);
    ChangesGrow(closes, next.close as real);
    TrueRangesGrow(candles, next);
    WithOneMore(closes, next.close as real, period);
    if period < |candles| {
      WithOneMore(Gains(closes), Max(change, 0.0), period);
      WithOneMore(Losses(closes), Max(-change, 0.0), period);
      WithOneMore(ranges, TrueRange(next, candles[|candles| - 1]), period);
    }
  }

  lemma WithOneMore(xs: seq<real>, x: real, period: nat)
    requires 0 < period <= |xs|
    ensures EmaState(xs + [x], period) == EmaStep(EmaState(xs, period), x, period)
    ensures WilderState(xs + [x], period) == WilderStep(WilderState(xs, period), x, period)
  {
    hide EmaStep, WilderStep;
    assert (xs + [x])[..|xs|] == xs;
  }

  lemma ClosesGrow(candles: seq<Candle>, next: Candle)
    ensures Closes(candles + [next]) == Closes(candles) + [next.close as real]
  {
  }

  lemma ChangesGrow(closes: seq<real>, x: real)
    requires closes != []
    ensures var change := x - closes[|closes| - 1];
            && Gains(closes + [x]) == Gains(closes) + [Max(change, 0.0)]
            && Losses(closes + [x]) == Losses(closes) + [Max(-change, 0.0)]
  {
    GainsGrow(closes, x);
    LossesGrow(closes, x);
    hide *;
    assert -(x - closes[|closes| - 1]) == closes[|closes| - 1] - x;
  }

  lemma GainsGrow(closes: seq<real>, x: real)
    requires closes != []
    ensures Gains(closes + [x]) == Gains(closes) + [Max(x - closes[|closes| - 1], 0.0)]
  {
    hide *;
    var longer, n := closes + [x], |closes|;
    assert longer[n - 1] == closes[n - 1] && longer[n] == x;
    assert Gains(longer)[n - 1] == Max(x - closes[|closes| - 1], 0.0);
    forall i | 0 <= i < n - 1
      ensures Gains(longer)[i] == Gains(closes)[i]
    {
      assert longer[i] == closes[i] && longer[i + 1] == closes[i + 1];
    }
  }

  lemma LossesGrow(closes: seq<real>, x: real)
    requires closes != []
    ensures Losses(closes + [x]) == Losses(closes) + [Max(closes[|closes| - 1] - x, 0.0)]
  {
    hide *;
    var longer, n := closes + [x], |closes|;
    assert longer[n - 1] == closes[n - 1] && longer[n] == x;
    assert Losses(longer)[n - 1] == Max(closes[|closes| - 1] - x, 0.0);
    forall i | 0 <= i < n - 1
      ensures Losses(longer)[i] == Losses(closes)[i]
    {
      assert longer[i] == closes[i] && longer[i + 1] == closes[i + 1];
    }
  }

  lemma TrueRangesGrow(candles: seq<Candle>, next: Candle)
    requires candles != []
    ensures TrueRanges(candles + [next]) == TrueRanges(candles) + [TrueRange(next, candles[|candles| - 1])]
  {
    hide TrueRange;
  }

  // ----- ranges -----

  function MaxOf(xs: seq<real>): (m: real)
    requires xs != []
    ensures forall i :: 0 <= i < |xs| ==> xs[i] <= m
  {
    if |xs| == 1 then xs[0] else Max(MaxOf(xs[..|xs| - 1]), xs[|xs| - 1])
  }

  lemma AveragesNonNegative(closes: seq<real>, period: nat)
    requires 0 < period < |closes|
    ensures WilderState(Gains(closes), period) >= 0.0 && WilderState(Losses(closes), period) >= 0.0
  {
    WilderWithin(Gains(closes), period, 0.0, MaxOf(Gains(closes)));
    WilderWithin(Losses(closes), period, 0.0, MaxOf(Losses(closes)));
  }

  /** The EMA lies between any bounds on the closes, before and after rounding. */
  lemma EmaInRange(candles: seq<Candle>, period: nat, lo: int, hi: int)
    requires 0 < period <= |candles|
    requires forall i :: 0 <= i < |candles| ==> lo <= candles[i].close <= hi
    ensures lo as real <= EmaState(Closes(candles), period) <= hi as real
    ensures lo <= Round(EmaState(Closes(candles), period)) <= hi
  {
    EmaWithin(Closes(candles), period, lo as real, hi as real);
    RoundBetween(EmaState(Closes(candles), period), lo, hi);
  }

  lemma RoundBetween(x: real, lo: int, hi: int)
    requires lo as real <= x <= hi as real
    ensures lo <= Round(x) <= hi
  {
    RoundMonotone(lo as real, x);
    RoundMonotone(x, hi as real);
    RoundOnGrid(lo);
    RoundOnGrid(hi);
  }

  lemma RsiOfInRange(gain: real, loss: real)
    requires gain >= 0.0 && loss >= 0.0
    ensures 0.0 <= RsiOf(gain, loss) <= 100.0
    ensures RsiOf(gain, loss) == 100.0 <==> loss == 0.0
    ensures loss != 0.0 ==> (RsiOf(gain, loss) == 0.0 <==> gain == 0.0)
  {
    if loss != 0.0 {
      var rs := gain / loss;
      assert rs * loss == gain;
      assert rs >= 0.0;
      var q := 100.0 / (1.0 + rs);
      assert q * (1.0 + rs) == 100.0;
      assert q > 0.0;
      assert q <= 100.0;
      if gain == 0.0 {
        assert rs == 0.0;
      } else {
        assert rs > 0.0;
        assert q < 100.0;
      }
    }
  }

  lemma {:induction false} SumZero(xs: seq<real>)
    requires forall i :: 0 <= i < |xs| ==> xs[i] >= 0.0
    ensures SumReals(xs) >= 0.0
    ensures SumReals(xs) == 0.0 <==> forall i :: 0 <= i < |xs| ==> xs[i] == 0.0
  {
    if xs != [] {
      SumZero(xs[..|xs| - 1]);
      assert xs == xs[..|xs| - 1] + [xs[|xs| - 1]];
    }
  }

  /** A Wilder average of non-negative values vanishes only when all of them do. */
  lemma {:induction false} WilderZero(xs: seq<real>, period: nat)
    requires 1 < period <= |xs|
    requires forall i :: 0 <= i < |xs| ==> xs[i] >= 0.0
    ensures WilderState(xs, period) >= 0.0
    ensures WilderState(xs, period) == 0.0 <==> forall i :: 0 <= i < |xs| ==> xs[i] == 0.0
  {
    var n := |xs| - 1;
    if |xs| == period {
      SumZero(xs);
      QuotientZero(SumReals(xs), period as real);
    } else {
      WilderZero(xs[..n], period);
      WilderStepZero(WilderState(xs[..n], period), xs[n], period);
      hide WilderStep;
      assert xs == xs[..n] + [xs[n]];
    }
  }

  lemma WilderStepZero(average: real, x: real, period: nat)
    requires period > 1 && average >= 0.0 && x >= 0.0
    ensures WilderStep(average, x, period) >= 0.0
    ensures WilderStep(average, x, period) == 0.0 <==> average == 0.0 && x == 0.0
  {
    var before := average * (period - 1) as real;
    assert before >= 0.0 && (before == 0.0 <==> average == 0.0);
    QuotientZero(before + x, period as real);
  }

  lemma QuotientZero(a: real, b: real)
    requires b > 0.0 && a >= 0.0
    ensures a / b >= 0.0 && (a / b == 0.0 <==> a == 0.0)
  {
    assert a / b * b == a;
  }

  /** The RSI stays in [0, 100]. */
  lemma RsiInRange(candles: seq<Candle>, period: nat)
    requires 0 < period < |candles|
    ensures var closes := Closes(candles);
            var gain, loss := WilderState(Gains(closes), period), WilderState(Losses(closes), period);
            gain >= 0.0 && loss >= 0.0 && 0 <= RsiUnits(gain, loss) <= 100 * ONE
  {
    hide RsiUnits, RsiOf, WilderState, Gains, Losses, Closes;
    var closes := Closes(candles);
    AveragesNonNegative(closes, period);
    RsiUnitsInRange(WilderState(Gains(closes), period), WilderState(Losses(closes), period));
  }

  lemma RsiUnitsInRange(gain: real, loss: real)
    requires gain >= 0.0 && loss >= 0.0
    ensures 0 <= RsiUnits(gain, loss) <= 100 * ONE
  {
    RsiOfInRange(gain, loss);
    hide RsiOf, Round;
    RoundBetween(RsiOf(gain, loss) * ONE as real, 0, 100 * ONE);
  }

  /** Before rounding it is exactly 100 when no close ever fell, which includes
      a flat series. */
  lemma RsiHundredExactlyWhen(candles: seq<Candle>, period: nat)
    requires 1 < period < |candles|
    ensures var closes := Closes(candles);
            var gain, loss := WilderState(Gains(closes), period), WilderState(Losses(closes), period);
            && gain >= 0.0 && loss >= 0.0
            && (RsiOf(gain, loss) == 100.0 <==>
                forall i :: 0 < i < |candles| ==> candles[i].close >= candles[i - 1].close)
  {
    hide RsiOf, WilderState;
    var closes := Closes(candles);
    AveragesNonNegative(closes, period);
    WilderZero(Losses(closes), period);
    RsiOfInRange(WilderState(Gains(closes), period), WilderState(Losses(closes), period));
    NeverFell(candles);
  }

  lemma NeverFell(candles: seq<Candle>)
    requires candles != []
    ensures var losses := Losses(Closes(candles));
            (forall i :: 0 <= i < |losses| ==> losses[i] == 0.0)
            <==> forall i :: 0 < i < |candles| ==> candles[i].close >= candles[i - 1].close
  {
    var losses := Losses(Closes(candles));
    if forall i :: 0 <= i < |losses| ==> losses[i] == 0.0 {
      forall i | 0 < i < |candles| ensures candles[i].close >= candles[i - 1].close {
        assert losses[i - 1] == 0.0;
      }
    }
  }

  /** The ATR lies between any bounds on the true ranges, which are never negative. */
  lemma AtrInRange(candles: seq<Candle>, period: nat, lo: real, hi: real)
    requires 0 < period < |candles| && Within(TrueRanges(candles), lo, hi)
    ensures lo <= WilderState(TrueRanges(candles), period) <= hi
    ensures WilderState(TrueRanges(candles), period) >= 0.0
    ensures 0 <= Round(WilderState(TrueRanges(candles), period))
  {
    var trs := TrueRanges(candles);
    WilderWithin(trs, period, lo, hi);
    WilderWithin(trs, period, 0.0, MaxOf(trs));
    RoundMonotone(0.0, WilderState(trs, period));
    RoundOnGrid(0);
  }
}
