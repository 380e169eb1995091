/** Facts about products of reals that the solver does not find by itself. */
module Reals {

  lemma ProductPositive(a: real, b: real)
    requires a > 0.0 && b > 0.0
    ensures a * b > 0.0
  {
  }

  lemma ProductNonNegative(a: real, b: real)
    requires a >= 0.0 && b >= 0.0
    ensures a * b >= 0.0
  {
  }

  lemma ProductMonotone(a: real, b: real, c: real)
    requires a < b && c > 0.0
    ensures a * c < b * c
  {
    ProductPositive(b - a, c);
  }

  lemma ScaleDown(x: real, m: real)
    requires x >= 0.0 && 0.0 <= m <= 1.0
    ensures 0.0 <= x * m <= x
  {
    ProductNonNegative(x, m);
    var rest := 1.0 - m;
    ProductNonNegative(x, rest);
    assert x * rest == x - x * m;
  }

  lemma ProductReorders(a: real, b: real, c: real)
    ensures a * (b * c) == b * (a * c)
  {
  }

  lemma QuotientOfProduct(product: real, a: real, b: real)
    requires b != 0.0 && product == a * b
    ensures product / b == a
  {
  }

  lemma NegatedProduct(x: real, y: real, m: real)
    requires y == -x
    ensures y * m == -(x * m)
  {
    assert y * m + x * m == (y + x) * m;
  }
}
