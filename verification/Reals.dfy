/**
 Magnitudes and extrema, products of reals behind a function symbol, and the few algebraic facts that the models share.
 */
module Reals {
  function Abs(x: real): real {
    if x < 0.0 then -x else x
  }

  function AbsInt(x: int): nat {
    if x < 0 then -x else x
  }

  function MaxReal(a: real, b: real): real {
    if a > b then a else b
  }

  function MinReal(a: real, b: real): real {
    if a < b then a else b
  }

  function Product(a: real, b: real): real {
    a * b
  }

  function Square(a: real): real {
    Product(a, a)
  }

  lemma Positive(a: real, b: real)
    requires a > 0.0 && b > 0.0
    ensures Product(a, b) > 0.0
  {
  }

  lemma SquareNegated(a: real)
    ensures Square(-a) == Square(a)
  {
  }

  lemma SquareSign(a: real)
    ensures Square(a) >= 0.0
    ensures Square(a) == 0.0 <==> a == 0.0
  {
    if a > 0.0 {
      Positive(a, a);
    } else if a < 0.0 {
      Positive(-a, -a);
      SquareNegated(a);
    }
  }

  lemma Monotone(c: real, a: real, b: real)
    requires c >= 0.0 && a <= b
    ensures Product(c, a) <= Product(c, b)
  {
  }

  lemma StrictlyMonotone(c: real, a: real, b: real)
    requires c > 0.0 && a < b
    ensures Product(c, a) < Product(c, b)
  {
    Positive(c, b - a);
  }

  lemma Commutes(a: real, b: real)
    ensures Product(a, b) == Product(b, a)
  {
  }

  lemma SquareMonotone(a: real, b: real)
    requires a >= 0.0 && b >= 0.0
    ensures a <= b <==> Square(a) <= Square(b)
  {
    if a <= b {
      Monotone(a, a, b);
      Commutes(a, b);
      Monotone(b, a, b);
    } else {
      StrictlyMonotone(a, b, a);
      Commutes(a, b);
      Monotone(b, b, a);
    }
  }

  lemma SquareOfProduct(a: real, b: real)
    ensures Square(Product(a, b)) == Product(Square(a), Square(b))
  {
  }

  lemma Distributes(c: real, a: real, b: real)
    ensures Product(c, a + b) == Product(c, a) + Product(c, b)
  {
  }

  lemma Associates(a: real, b: real, c: real)
    ensures Product(Product(a, b), c) == Product(a, Product(b, c))
  {
  }

  lemma Unit(a: real)
    ensures Product(a, 1.0) == a && Product(1.0, a) == a && Product(a, 0.0) == 0.0 && Product(0.0, a) == 0.0
  {
  }

  lemma Quotient(a: real, b: real)
    requires b != 0.0
    ensures Product(a / b, b) == a
  {
  }

  lemma QuotientOfProduct(a: real, d: real)
    requires d != 0.0
    ensures a * d / d == a
  {
  }

  lemma Cancel(a: real, b: real, c: real)
    requires c != 0.0 && Product(a, c) == Product(b, c)
    ensures a == b
  {
    assert (a - b) * c == 0.0;
  }

  /** A convex combination of two bounded values is bounded. */
  lemma Mixture(a: real, b: real, p: real, q: real, r: real)
    requires a >= 0.0 && b >= 0.0 && a + b == 1.0 && p <= r && q <= r
    ensures Product(a, p) + Product(b, q) <= r
  {
    Monotone(a, p, r);
    Monotone(b, q, r);
    Commutes(a, r);
    Commutes(b, r);
    Distributes(r, a, b);
    Unit(r);
  }
}
