/**
 * Facts about integer multiplication, division and remainder, proved by
 * induction so that pixel and sample addressing need no nonlinear search.
 */
module IntArith {

  lemma {:induction false} MulNonneg(k: int, d: int)
    requires k >= 0 && d >= 0
    ensures k * d >= 0
    decreases k
  {
    if k > 0 {
      MulNonneg(k - 1, d);
      assert k * d == (k - 1) * d + d;
    }
  }

  lemma MulMonotone(a: int, b: int, d: int)
    requires a >= b && d >= 0
    ensures a * d >= b * d
  {
    MulNonneg(a - b, d);
    assert a * d - b * d == (a - b) * d;
  }

  /** A product below another with the same positive factor has the smaller other factor. */
  lemma MulStrict(a: int, b: int, d: int)
    requires d > 0
    ensures a * d < b * d ==> a < b
  {
    if a >= b {
      MulMonotone(a, b, d);
    }
  }

  /** The only multiple of d strictly between -d and d is zero. */
  lemma SmallMultiple(k: int, d: int)
    requires d > 0
    ensures -d < k * d < d ==> k == 0
  {
    if k >= 1 {
      MulMonotone(k, 1, d);
    } else if k <= -1 {
      MulMonotone(-k, 1, d);
      assert k * d == -((-k) * d);
    }
  }

  /** Quotient and remainder are unique: n == q * d + r with 0 <= r < d fixes both. */
  lemma DivModUnique(n: int, d: int, q: int, r: int)
    requires d > 0 && 0 <= r < d && n == q * d + r
    ensures n / d == q && n % d == r
  {
    var q' := n / d;
    var r' := n % d;
    assert n == q' * d + r';
    assert (q - q') * d == r' - r;
    SmallMultiple(q - q', d);
  }
}
