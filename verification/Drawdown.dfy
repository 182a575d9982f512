/** The largest fall of an equity curve below an earlier peak, as the two
    reports state it: the curve starts at 0 and moves by each profit. */
module Drawdown {
  import opened Numbers

  function Equity(pnls: seq<int>): int
  {
    if pnls == [] then 0 else Equity(pnls[..|pnls| - 1]) + pnls[|pnls| - 1]
  }

  function EquityAt(pnls: seq<int>, k: nat): int
    requires k <= |pnls|
  {
    Equity(pnls[..k])
  }

  /** The fall from after `i` profits to after `j` of them. */
  function Fall(pnls: seq<int>, i: nat, j: nat): int
    requires i <= j <= |pnls|
  {
    EquityAt(pnls, i) - EquityAt(pnls, j)
  }

  /** Some fall is this deep and none is deeper. */
  predicate IsLargestFall(pnls: seq<int>, d: int)
  {
    && (exists i, j :: 0 <= i <= j <= |pnls| && Fall(pnls, i, j) == d)
    && (forall i, j :: 0 <= i <= j <= |pnls| ==> Fall(pnls, i, j) <= d)
  }

  lemma LargestFallUnique(pnls: seq<int>, d: int, e: int)
    requires IsLargestFall(pnls, d) && IsLargestFall(pnls, e)
    ensures d == e
  {
    hide Fall;
  }

  /** The highest equity after at most `k` profits. */
  predicate IsPeak(pnls: seq<int>, k: nat, peak: int)
    requires k <= |pnls|
  {
    && (exists i :: 0 <= i <= k && EquityAt(pnls, i) == peak)
    && (forall i :: 0 <= i <= k ==> EquityAt(pnls, i) <= peak)
  }

  predicate IsLargestFallTo(pnls: seq<int>, m: nat, d: int)
    requires m <= |pnls|
  {
    && (exists i, j :: 0 <= i <= j <= m && Fall(pnls, i, j) == d)
    && (forall i, j :: 0 <= i <= j <= m ==> Fall(pnls, i, j) <= d)
  }

  lemma EquityStep(pnls: seq<int>, k: nat)
    requires k < |pnls|
    ensures EquityAt(pnls, k + 1) == EquityAt(pnls, k) + pnls[k]
  {
    assert pnls[..k + 1][..k] == pnls[..k];
  }

  lemma PeakStep(pnls: seq<int>, k: nat, peak: int, next: int)
    requires k < |pnls| && IsPeak(pnls, k, peak)
    requires next == MaxInt(peak, EquityAt(pnls, k + 1))
    ensures IsPeak(pnls, k + 1, next)
  {
    hide EquityAt;
    if next == peak {
      var i :| 0 <= i <= k && EquityAt(pnls, i) == peak;
      assert i <= k + 1;
    } else {
      assert EquityAt(pnls, k + 1) == next;
    }
  }

  lemma FallStep(pnls: seq<int>, k: nat, peak: int, d: int, next: int)
    requires k < |pnls| && IsPeak(pnls, k + 1, peak) && IsLargestFallTo(pnls, k, d)
    requires next == MaxInt(d, peak - EquityAt(pnls, k + 1))
    ensures IsLargestFallTo(pnls, k + 1, next)
  {
    hide EquityAt;
    if next == d {
      var i, j :| 0 <= i <= j <= k && Fall(pnls, i, j) == d;
      assert j <= k + 1;
    } else {
      var i :| 0 <= i <= k + 1 && EquityAt(pnls, i) == peak;
      assert Fall(pnls, i, k + 1) == next;
    }
    forall i, j | 0 <= i <= j <= k + 1 ensures Fall(pnls, i, j) <= next {
      if j == k + 1 {
        assert EquityAt(pnls, i) <= peak;
      }
    }
  }

  lemma CurveStarts(pnls: seq<int>)
    ensures EquityAt(pnls, 0) == 0 && IsPeak(pnls, 0, 0) && IsLargestFallTo(pnls, 0, 0)
  {
    assert EquityAt(pnls, 0) == 0;
    assert Fall(pnls, 0, 0) == 0;
  }

  method MaxDrawdown(pnls: seq<int>) returns (maxDrawdown: int)
    ensures IsLargestFall(pnls, maxDrawdown)
  {
    hide EquityAt, IsPeak, IsLargestFallTo;
    var equity, peak := 0, 0;
    maxDrawdown := 0;
    CurveStarts(pnls);
    for k := 0 to |pnls|
      invariant equity == EquityAt(pnls, k)
      invariant IsPeak(pnls, k, peak)
      invariant IsLargestFallTo(pnls, k, maxDrawdown)
    {
      EquityStep(pnls, k);
      PeakStep(pnls, k, peak, MaxInt(peak, equity + pnls[k]));
      equity := equity + pnls[k];
      peak := MaxInt(peak, equity);
      FallStep(pnls, k, peak, maxDrawdown, MaxInt(maxDrawdown, peak - equity));
      maxDrawdown := MaxInt(maxDrawdown, peak - equity);
    }
    FallsToEnd(pnls, maxDrawdown);
  }

  lemma FallsToEnd(pnls: seq<int>, d: int)
    requires IsLargestFallTo(pnls, |pnls|, d)
    ensures IsLargestFall(pnls, d)
  {
  }
}
