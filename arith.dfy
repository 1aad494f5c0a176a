/** Small facts about real multiplication and division. Each names the
    product (or quotient) it speaks of as a parameter r, so that a caller
    can apply it to any term equal to that product. */
module RealArith {

  lemma ProductPos(a: real, b: real, r: real)
    requires r == a * b && a > 0.0 && b > 0.0
    ensures r > 0.0
  {
  }

  lemma ProductNonneg(a: real, b: real, r: real)
    requires r == a * b && a >= 0.0 && b >= 0.0
    ensures r >= 0.0
  {
  }

  lemma SquareNonneg(a: real, r: real)
    requires r == a * a
    ensures r >= 0.0
  {
  }

  lemma SquarePos(a: real, r: real)
    requires r == a * a && a != 0.0
    ensures r > 0.0
  {
    if a > 0.0 { ProductPos(a, a, r); } else { ProductPos(-a, -a, r); }
  }

  /** a < b and c > 0 give a c < b c */
  lemma MulStrictMono(a: real, b: real, c: real)
    requires a < b && c > 0.0
    ensures a * c < b * c
  {
  }

  /** x / d is the only q with q d == x */
  lemma QuotientUnique(q: real, x: real, d: real)
    requires d != 0.0 && q * d == x
    ensures q == x / d
  {
  }

  lemma QuotientPos(x: real, d: real, q: real)
    requires x > 0.0 && d > 0.0 && q == x / d
    ensures q > 0.0
  {
  }

  /** With a positive factor c, q c orders like q. */
  lemma FactorOrder(q1: real, q2: real, c: real)
    requires c > 0.0 && q1 * c < q2 * c
    ensures q1 < q2
  {
  }

  lemma Swap(x: real, y: real, z: real)
    ensures (x * y) * z == (x * z) * y
  {
  }

  lemma SameFactor(x: real, y: real, c: real)
    requires c != 0.0 && x * c == y * c
    ensures x == y
  {
  }

  /** With a positive factor c, q c orders like q (non-strict form). */
  lemma FactorOrderWeak(q1: real, q2: real, c: real)
    requires c > 0.0 && q1 * c <= q2 * c
    ensures q1 <= q2
  {
  }
}
