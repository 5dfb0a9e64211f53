/** Small arithmetic facts (Euclidean division, products of reals) used by the other modules. */
module Arith {

  /** Division by a positive divisor recovers the quotient and remainder it was built from. */
  lemma DivModOf(q: int, r: int, d: int)
    requires d > 0 && 0 <= r < d
    ensures (q * d + r) / d == q && (q * d + r) % d == r
  {
    var k := q * d + r;
    var q', r' := k / d, k % d;
    assert k == q' * d + r';
    MulStrict(q, q', d);
    MulStrict(q', q, d);
  }

  /** A larger integer factor gives a product larger by at least the other factor. */
  lemma MulStrict(a: int, b: int, d: int)
    requires d > 0
    ensures a > b ==> a * d >= b * d + d
  {
    if a > b {
      MulMono(a, b + 1, d);
    }
  }

  lemma MulMono(a: int, b: int, d: int)
    requires a >= b && d > 0
    ensures a * d >= b * d
  {
  }

  lemma MulMonoReal(x: real, y: real, r: real)
    requires x <= y && r >= 0.0
    ensures x * r <= y * r
  {
    assert (y - x) * r >= 0.0;
  }

  lemma MulMonoComplement(x: real, y: real, r: real)
    requires x <= y && r <= 1.0
    ensures y * r - x * r <= y - x
  {
    assert (y - x) * (1.0 - r) >= 0.0;
  }

  /** A point lo + (hi - lo) * r with r in [0, 1] lies between lo and hi, whichever is larger. */
  lemma Between(lo: real, hi: real, r: real)
    requires 0.0 <= r <= 1.0
    ensures lo <= hi ==> lo <= lo + (hi - lo) * r <= hi
    ensures hi <= lo ==> hi <= lo + (hi - lo) * r <= lo
  {
    if lo <= hi {
      MulMonoReal(lo, hi, r);
      MulMonoComplement(lo, hi, r);
    } else {
      MulMonoReal(hi, lo, r);
      MulMonoComplement(hi, lo, r);
    }
  }

  lemma LerpNonNeg(lo: real, hi: real, r: real)
    requires lo >= 0.0 && hi >= 0.0 && 0.0 <= r <= 1.0
    ensures lo + (hi - lo) * r >= 0.0
  {
    Between(lo, hi, r);
  }

  /** A non-negative part of a positive whole is a fraction in [0, 1]. */
  lemma FractionOf(x: real, y: real)
    requires 0.0 <= x <= y && y > 0.0
    ensures 0.0 <= x / y <= 1.0
  {
    var q := x / y;
    assert q * y == x;
    if q < 0.0 {
      MulMonoReal(q, 0.0, y);
    } else if q > 1.0 {
      MulMonoReal(1.0, q, y);
    }
  }
}
