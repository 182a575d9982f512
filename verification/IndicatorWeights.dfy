/** What the indicators weigh: both smoothings as explicit weighted sums of the
    series, the true range as the widest of three spans, and the RSI as the
    share of gains. */
module IndicatorWeights {
  import opened Market
  import opened Numbers
  import opened Rounding
  import opened Indicators

  // ----- weighted sums -----

  function Power(b: real, n: nat): real
  {
    if n == 0 then 1.0 else b * Power(b, n - 1)
  }

  function Scale(c: real, x: real): real
  {
    c * x
  }

  /** A value that has been kept through `age` later ones. */
  function Kept(keep: real, age: nat, x: real): real
  {
    Power(keep, age) * x
  }

  /** Each value kept through all the later ones. */
  function Aged(xs: seq<real>, keep: real): (ys: seq<real>)
    ensures |ys| == |xs|
    ensures forall j :: 0 <= j < |xs| ==> ys[j] == Kept(keep, |xs| - 1 - j, xs[j])
  {
    seq(|xs|, j requires 0 <= j < |xs| => Kept(keep, |xs| - 1 - j, xs[j]))
  }

  /** The mean of the first `period` values, kept through every later one, and
      each later value with weight `k`, kept through those after it; a value
      loses the share `k` each time. */
  ghost predicate IsSmoothed(r: real, xs: seq<real>, period: nat, k: real)
    requires 0 < period <= |xs|
  {
    r == Kept(1.0 - k, |xs| - period, SumReals(xs[..period]) / period as real)
         + Scale(k, SumReals(Aged(xs[period..], 1.0 - k)))
  }

  lemma ScaleAdd(c: real, a: real, b: real)
    ensures Scale(c, a + b) == Scale(c, a) + Scale(c, b)
  {
  }

  lemma ScaleTwice(c: real, d: real, x: real)
    ensures Scale(c, Scale(d, x)) == Scale(d, Scale(c, x))
  {
  }

  lemma KeptOnce(keep: real, age: nat, x: real)
    ensures Kept(keep, age + 1, x) == Scale(keep, Kept(keep, age, x))
    ensures Kept(keep, 0, x) == x
  {
  }

  function Scaled(xs: seq<real>, c: real): (ys: seq<real>)
    ensures |ys| == |xs|
    ensures forall j :: 0 <= j < |xs| ==> ys[j] == Scale(c, xs[j])
  {
    seq(|xs|, j requires 0 <= j < |xs| => Scale(c, xs[j]))
  }

  lemma {:induction false} SumScaled(xs: seq<real>, c: real)
    ensures SumReals(Scaled(xs, c)) == Scale(c, SumReals(xs))
  {
    if xs != [] {
      var n := |xs| - 1;
      SumScaled(xs[..n], c);
      ScaleAdd(c, SumReals(xs[..n]), xs[n]);
      hide Scale;
      assert Scaled(xs, c)[..n] == Scaled(xs[..n], c);
    }
  }

  lemma SumAppend(xs: seq<real>, x: real)
    ensures SumReals(xs + [x]) == SumReals(xs) + x
  {
    assert (xs + [x])[..|xs|] == xs;
  }

  lemma AgedAppend(xs: seq<real>, x: real, keep: real)
    ensures SumReals(Aged(xs + [x], keep)) == Scale(keep, SumReals(Aged(xs, keep))) + x
  {
    hide *;
    var n, older := |xs|, Scaled(Aged(xs, keep), keep);
    forall j | 0 <= j < n ensures Aged(xs + [x], keep)[j] == older[j] {
      KeptOnce(keep, n - 1 - j, xs[j]);
    }
    KeptOnce(keep, 0, x);
    assert Aged(xs + [x], keep) == older + [x];
    SumAppend(older, x);
    SumScaled(Aged(xs, keep), keep);
  }

  // ----- one step -----

  /** The next state keeps the share `1 - k` of the last and takes the share `k`
      of the new value. */
  function Mixed(k: real, before: real, x: real): real
  {
    Scale(1.0 - k, before) + Scale(k, x)
  }

  lemma SmoothedStart(xs: seq<real>, k: real)
    requires xs != []
    ensures IsSmoothed(SumReals(xs) / |xs| as real, xs, |xs|, k)
  {
    var n := |xs|;
    assert xs[..n] == xs && xs[n..] == [];
    assert SumReals(Aged([], 1.0 - k)) == 0.0;
    KeptOnce(1.0 - k, 0, SumReals(xs) / n as real);
    assert Scale(k, 0.0) == 0.0;
    hide SumReals, Aged, Kept, Scale;
  }

  lemma SmoothedStep(before: real, xs: seq<real>, x: real, period: nat, k: real)
    requires 0 < period <= |xs| && IsSmoothed(before, xs, period, k)
    ensures IsSmoothed(Mixed(k, before, x), xs + [x], period, k)
  {
    var keep, later := 1.0 - k, xs[period..];
    var mean := SumReals(xs[..period]) / period as real;
    var sum := SumReals(Aged(later, keep));
    AgedAppend(later, x, keep);
    assert (xs + [x])[..period] == xs[..period] && (xs + [x])[period..] == later + [x];
    KeptOnce(keep, |xs| - period, mean);
    ScaleAdd(keep, Kept(keep, |xs| - period, mean), Scale(k, sum));
    ScaleAdd(k, Scale(keep, sum), x);
    ScaleTwice(keep, k, sum);
    hide SumReals, Aged, Kept, Scale;
  }

  lemma EmaStepMixes(ema: real, x: real, period: nat)
    requires period > 0
    ensures EmaStep(ema, x, period) == Mixed(2.0 / (period + 1) as real, ema, x)
  {
    Rearranged(ema, x, 2.0 / (period + 1) as real);
  }

  lemma Rearranged(a: real, x: real, k: real)
    ensures (x - a) * k + a == (1.0 - k) * a + k * x
  {
  }

  lemma WilderStepMixes(average: real, x: real, period: nat)
    requires period > 0
    ensures WilderStep(average, x, period) == Mixed(1.0 / period as real, average, x)
  {
    PartOfSum(average, x, period as real);
  }

  lemma PartOfSum(a: real, x: real, p: real)
    requires p > 0.0
    ensures (a * (p - 1.0) + x) / p == (1.0 - 1.0 / p) * a + 1.0 / p * x
  {
    var k := 1.0 / p;
    assert k * p == 1.0;
    var q := (1.0 - k) * a + k * x;
    calc {
      q * p;
      (p - k * p) * a + k * p * x;
      a * (p - 1.0) + x;
    }
    assert q * p / p == q;
  }

  // ----- the states -----

  /** The EMA: weight 2 / (period + 1) for the newest close, each older one less
      by the factor that leaves, and the starting mean by all of them. */
  lemma {:induction false} EmaWeights(xs: seq<real>, period: nat)
    requires 0 < period <= |xs|
    ensures IsSmoothed(EmaState(xs, period), xs, period, 2.0 / (period + 1) as real)
  {
    var n, k := |xs| - 1, 2.0 / (period + 1) as real;
    if n + 1 == period {
      SmoothedStart(xs, k);
    } else {
      EmaWeights(xs[..n], period);
      EmaStepMixes(EmaState(xs[..n], period), xs[n], period);
      SmoothedStep(EmaState(xs[..n], period), xs[..n], xs[n], period, k);
      hide IsSmoothed, EmaStep, Mixed;
      assert xs == xs[..n] + [xs[n]];
    }
  }

  /** Wilder's average of gains, losses or true ranges: weight 1 / period. */
  lemma {:induction false} WilderWeights(xs: seq<real>, period: nat)
    requires 0 < period <= |xs|
    ensures IsSmoothed(WilderState(xs, period), xs, period, 1.0 / period as real)
  {
    var n, k := |xs| - 1, 1.0 / period as real;
    if n + 1 == period {
      SmoothedStart(xs, k);
    } else {
      WilderWeights(xs[..n], period);
      WilderStepMixes(WilderState(xs[..n], period), xs[n], period);
      SmoothedStep(WilderState(xs[..n], period), xs[..n], xs[n], period, k);
      hide IsSmoothed, WilderStep, Mixed;
      assert xs == xs[..n] + [xs[n]];
    }
  }

  // ----- what is smoothed -----

  /** The true range is the widest of the candle's own span and the ways from the
      previous close to its high and to its low. */
  lemma TrueRangeIsWidest(current: Candle, previous: Candle)
    ensures var tr, last := TrueRange(current, previous), previous.close as real;
            var high, low := current.high as real, current.low as real;
            && tr >= high - low && tr >= high - last && tr >= last - high && tr >= low - last && tr >= last - low
            && (tr == high - low || tr == high - last || tr == last - high || tr == low - last || tr == last - low)
  {
  }

  /** A change is its gain less its loss, and one of the two is zero. */
  lemma ChangesSplit(closes: seq<real>, i: nat)
    requires i + 1 < |closes|
    ensures var gain, loss := Gains(closes)[i], Losses(closes)[i];
            gain - loss == closes[i + 1] - closes[i] && gain >= 0.0 && loss >= 0.0 && (gain == 0.0 || loss == 0.0)
  {
  }

  /** The RSI is the gains' share of all movement, in percent; 100 when nothing
      was lost. */
  lemma RsiIsShare(gain: real, loss: real)
    requires gain >= 0.0 && loss >= 0.0
    ensures if loss == 0.0 then RsiOf(gain, loss) == 100.0
            else RsiOf(gain, loss) * (gain + loss) == 100.0 * gain
  {
    if loss > 0.0 {
      var rs := gain / loss;
      assert rs * loss == gain;
      var q := 100.0 / (1.0 + rs);
      assert q * (1.0 + rs) == 100.0;
      Shares(rs, q, loss);
    }
  }

  lemma Shares(rs: real, q: real, loss: real)
    requires q * (1.0 + rs) == 100.0
    ensures (100.0 - q) * (rs * loss + loss) == 100.0 * (rs * loss)
  {
    calc {
      (100.0 - q) * (rs * loss + loss);
      100.0 * (rs * loss + loss) - q * (1.0 + rs) * loss;
      100.0 * (rs * loss);
    }
  }

  /** As returned it is that share to the nearest unit of 10^-8. */
  lemma RsiUnitsNearest(gain: real, loss: real)
    requires gain >= 0.0 && loss >= 0.0
    ensures Abs(RsiUnits(gain, loss) as real - RsiOf(gain, loss) * 100_000_000.0) <= 0.5
  {
    hide RsiOf;
  }
}
