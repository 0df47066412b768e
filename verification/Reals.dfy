/** Order facts about products of reals, one at a time. */
module Reals {

  lemma Product(x: real, y: real)
    requires 0.0 <= x && 0.0 <= y
    ensures 0.0 <= x * y
  {
  }

  lemma PositiveProduct(x: real, y: real)
    requires 0.0 < x && 0.0 < y
    ensures 0.0 < x * y
  {
  }

  /** Multiplying by a nonnegative number keeps the order. */
  lemma Scaled(a: real, b: real, c: real)
    requires a <= b && 0.0 <= c
    ensures a * c <= b * c
  {
    Product(b - a, c);
    assert (b - a) * c == b * c - a * c;
  }

  lemma ScaledLeft(c: real, a: real, b: real)
    requires a <= b && 0.0 <= c
    ensures c * a <= c * b
  {
    Product(c, b - a);
    assert c * (b - a) == c * b - c * a;
  }
}
