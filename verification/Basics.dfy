/** What several parts of the model share. */
module Basics {

  datatype Option<T> = None | Some(value: T)

  function Max(a: int, b: int): int { if a >= b then a else b }

  lemma MulMono(a: int, b: int, m: int)
    requires a <= b && m >= 0
    ensures a * m <= b * m
  {
  }

  lemma DivBounds(x: int, d: int)
    requires d > 0
    ensures d * (x / d) <= x < d * (x / d) + d
    ensures x == d * (x / d) + x % d && 0 <= x % d < d
  {
  }

  lemma QuotientUnique(d: int, p: int, s: int, q: int, r: int)
    requires d > 0 && d * p + s == d * q + r && 0 <= r < d && 0 <= s < d
    ensures p == q && r == s
  {
    if p + 1 <= q {
      MulMono(p + 1, q, d);
    } else if q + 1 <= p {
      MulMono(q + 1, p, d);
    }
  }

  /** Quotient and remainder are unique. */
  lemma DivUnique(x: int, d: int, q: int, r: int)
    requires d > 0 && x == d * q + r && 0 <= r < d
    ensures x / d == q && x % d == r
  {
    DivBounds(x, d);
    QuotientUnique(d, x / d, x % d, q, r);
  }

  lemma SubsetSize<T>(a: set<T>, b: set<T>)
    requires a <= b
    ensures |a| <= |b|
  {
    assert b == a + (b - a);
  }
}
