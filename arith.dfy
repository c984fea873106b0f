module Arith {
  /** Comparing a quotient by a positive divisor with `m` is comparing the
      dividend with `m` times the divisor. */
  lemma QuotientCompare(a: real, d: real, m: real)
    requires d > 0.0
    ensures a / d > m <==> a > m * d
    ensures a / d == m <==> a == m * d
    ensures a / d < m <==> a < m * d
  {
    var q := a / d;
    assert q * d == a;
    if q > m {
      assert (q - m) * d > 0.0;
    } else if q < m {
      assert (m - q) * d > 0.0;
    }
  }
}
