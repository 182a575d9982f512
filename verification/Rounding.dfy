/** Decimal rounding as `Number.prototype.toFixed` does it (section 21.1.3.3 of
    ECMA-262 2021): the sign is taken off first and a tie goes to the larger
    magnitude.  Amounts are integers in units of 10^-8, so rounding to eight
    places is rounding to an integer. */
module Rounding {

  /** One whole unit of money or price, in units of 10^-8. */
  const ONE: int := 100_000_000

  function Abs(x: real): (r: real)
    ensures r >= 0.0 && (r == x || r == -x)
  {
    if x < 0.0 then -x else x
  }

  function AbsInt(x: int): (r: nat)
    ensures r == x || r == -x
  {
    if x < 0 then -x else x
  }

  function Round(x: real): (r: int)
    ensures Abs(r as real - x) <= 0.5
    ensures Abs(r as real - x) == 0.5 ==> Abs(r as real) > Abs(x)
  {
    if x >= 0.0 then (x + 0.5).Floor else -(-x + 0.5).Floor
  }

  /** No integer is nearer, and a tie is never resolved towards zero. */
  lemma RoundIsNearest(x: real, n: int)
    ensures Abs(Round(x) as real - x) <= Abs(n as real - x)
    ensures Abs(Round(x) as real - x) == Abs(n as real - x) && n != Round(x)
            ==> Abs(n as real) < Abs(Round(x) as real)
  {
    var r := Round(x);
    if n < r {
      assert n as real <= r as real - 1.0;
    } else if n > r {
      assert n as real >= r as real + 1.0;
    }
  }

  lemma RoundOnGrid(n: int)
    ensures Round(n as real) == n
  {
  }

  lemma RoundMonotone(x: real, y: real)
    requires x <= y
    ensures Round(x) <= Round(y)
  {
  }

  lemma RoundNegated(x: real)
    ensures Round(-x) == -Round(x)
  {
  }
}
