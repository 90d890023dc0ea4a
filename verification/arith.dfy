/** Small facts about integer and real arithmetic that the solver does not find on its own. */
module Arith {

  lemma {:induction false} MulNonneg(a: int, b: int)
    requires a >= 0 && b >= 0
    ensures a * b >= 0
  {
  }

  /** A non-zero multiple of a positive number is at least that number away from zero. */
  lemma {:induction false} MulAwayFromZero(e: int, d: int)
    requires d > 0
    ensures e >= 1 ==> e * d >= d
    ensures e <= -1 ==> e * d <= -d
  {
    if e >= 1 {
      MulNonneg(e - 1, d);
    } else if e <= -1 {
      MulNonneg(-e - 1, d);
    }
  }

  /** Euclidean division by a positive divisor has exactly one quotient and remainder. */
  lemma {:induction false} DivModUnique(x: int, d: int, q: int, r: int)
    requires d > 0 && 0 <= r < d && x == q * d + r
    ensures x / d == q && x % d == r
  {
    var q0 := x / d;
    var r0 := x % d;
    assert (q - q0) * d == r0 - r;
    MulAwayFromZero(q - q0, d);
  }

  lemma {:induction false} DivMono(x: real, y: real, t: real)
    requires t > 0.0 && x <= y
    ensures x / t <= y / t
  {
    assert (y / t - x / t) * t == y - x;
  }

  lemma {:induction false} DivAdd(x: real, y: real, t: real)
    requires t > 0.0
    ensures x / t + y / t == (x + y) / t
  {
  }

  /** Dividing a multiple of `n` by `n`, in the reals. */
  lemma {:induction false} MulDivCancel(d: int, n: int)
    requires n > 0
    ensures (d * n) as real / n as real == d as real
  {
    assert (d * n) as real == d as real * n as real;
  }

  /** A mean of values in [0, hi]: a sum of `c` such values divided by `c` lies in [0, hi]. */
  lemma {:induction false} MeanBounded(s: int, c: int, hi: int)
    requires 0 <= s <= hi * c
    ensures c > 0 ==> 0.0 <= s as real / c as real <= hi as real
  {
    if c > 0 {
      DivMono(s as real, (hi * c) as real, c as real);
      DivMono(0.0, s as real, c as real);
      MulDivCancel(hi, c);
    }
  }
}
