/** Arithmetic that several cores share. */
module Numbers {

  function MaxInt(x: int, y: int): int
  {
    if x < y then y else x
  }

  function Max(x: real, y: real): real
  {
    if x < y then y else x
  }

  function Min(x: real, y: real): real
  {
    if y < x then y else x
  }

  function SumReals(xs: seq<real>): real
  {
    if xs == [] then 0.0 else SumReals(xs[..|xs| - 1]) + xs[|xs| - 1]
  }

  lemma NonNegativeProduct(a: real, b: real)
    requires a >= 0.0 && b >= 0.0
    ensures a * b >= 0.0
  {
  }

  lemma LessTimes(a: real, b: real, n: real)
    requires a < b && n > 0.0
    ensures a * n < b * n
  {
  }

  // ----- bounds on a quotient from bounds on its numerator -----

  lemma QuotientAtMost(x: real, bound: real, n: real)
    requires n > 0.0 && x <= bound * n
    ensures x / n <= bound
  {
    var q := x / n;
    assert q * n == x;
    if q > bound {
      LessTimes(bound, q, n);
    }
  }

  lemma QuotientAtLeast(x: real, bound: real, n: real)
    requires n > 0.0 && x >= bound * n
    ensures x / n >= bound
  {
    var q := x / n;
    assert q * n == x;
    if q < bound {
      LessTimes(q, bound, n);
    }
  }

  lemma QuotientAbove(x: real, bound: real, n: real)
    requires n > 0.0 && x > bound * n
    ensures x / n > bound
  {
    QuotientAtLeast(x, bound, n);
    assert x / n * n == x;
  }

  lemma QuotientBelow(x: real, bound: real, n: real)
    requires n > 0.0 && x < bound * n
    ensures x / n < bound
  {
    QuotientAtMost(x, bound, n);
    assert x / n * n == x;
  }
}
