/** The facts about floor division that the accounting proofs share. */
module Arithmetic {

  lemma FloorDivision(a: int, d: int)
    requires 0 < d
    ensures d * (a / d) <= a < d * (a / d) + d
  {}

  lemma ProductMonotone(t: int, a: int, b: int)
    requires 0 <= t && a <= b
    ensures t * a <= t * b
  {
    assert t * b - t * a == t * (b - a);
  }

  /** Multiples of `d` are ordered like their factors. */
  lemma FactorOrder(d: int, r: int, q: int)
    requires 0 < d && d * r < d * q + d
    ensures r <= q
  {
    assert d * (q + 1) == d * q + d;
    if q + 1 <= r { ProductMonotone(d, q + 1, r); }
  }

  lemma QuotientUnique(a: int, d: int, q: int)
    requires 0 < d && d * q <= a < d * q + d
    ensures a / d == q
  {
    FloorDivision(a, d);
    FactorOrder(d, a / d, q);
    FactorOrder(d, q, a / d);
  }

  lemma DivisionMonotone(x: int, y: int, d: int)
    requires x <= y && 0 < d
    ensures x / d <= y / d
  {
    FloorDivision(x, d);
    FloorDivision(y, d);
    FactorOrder(d, x / d, y / d);
  }

  lemma ExactQuotient(q: int, d: int)
    requires 0 < d
    ensures q * d / d == q
  {
    assert d * q == q * d;
    QuotientUnique(q * d, d, q);
  }
}
