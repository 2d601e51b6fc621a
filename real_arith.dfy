/**
 * Facts about products and quotients of reals that the solver does not find
 * unaided; the cost formulas and the window summaries lean on them.
 */
module RealArith {

  lemma MulNonneg(a: real, b: real)
    requires a >= 0.0 && b >= 0.0
    ensures a * b >= 0.0
  {
  }

  lemma NonnegFactor(x: real, t: real)
    requires t > 0.0 && x * t >= 0.0
    ensures x >= 0.0
  {
  }

  /** Scaling by a non-negative factor keeps the order of three reals. */
  lemma ScaleBetween(k: real, lo: real, mid: real, hi: real)
    requires k >= 0.0 && lo <= mid <= hi
    ensures k * lo <= k * mid <= k * hi
  {
    MulNonneg(k, mid - lo);
    MulNonneg(k, hi - mid);
  }

  /** 1 / x is antitone on the positive reals. */
  lemma ReciprocalAntitone(a: real, b: real)
    requires 0.0 < a <= b
    ensures 1.0 / b <= 1.0 / a
  {
    var d := 1.0 / a - 1.0 / b;
    assert d * (a * b) == b - a;
    NonnegFactor(d, a * b);
  }

  /** Dividing by a positive n keeps a lower bound of bound * n. */
  lemma QuotientAtLeast(total: real, n: real, bound: real)
    requires n > 0.0 && total >= bound * n
    ensures total / n >= bound
  {
    var q := total / n;
    assert (q - bound) * n == total - bound * n;
    NonnegFactor(q - bound, n);
  }

  /** Dividing by a positive n keeps an upper bound of n * bound. */
  lemma QuotientAtMost(total: real, n: real, bound: real)
    requires n > 0.0 && total <= n * bound
    ensures total / n <= bound
  {
    var q := total / n;
    assert (bound - q) * n == n * bound - total;
    NonnegFactor(bound - q, n);
  }
}
