/** Facts about natural-number division that the window bookkeeping relies on. */
module Arithmetic {
  /** Quotient and remainder are determined by `a == m * q + r` with `0 <= r < m`. */
  lemma DivModUnique(a: nat, m: nat, q: nat, r: nat)
    requires m > 0 && a == m * q + r && r < m
    ensures a / m == q && a % m == r
  {
    var q', r' := a / m, a % m;
    assert a == m * q' + r' && r' < m;
    assert m * (q' - q) == r - r';
    MulMonotone(m, q' - q);
  }

  /** A positive factor keeps a nonzero multiplier at least its own size. */
  lemma MulMonotone(m: int, d: int)
    requires m > 0
    ensures d >= 1 ==> m * d >= m
    ensures d <= -1 ==> m * d <= -m
  {
    assert m * d - m == m * (d - 1);
    assert m * d + m == m * (d + 1);
  }
}
