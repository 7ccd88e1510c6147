/** Complex numbers in exact arithmetic, as pairs of reals. */
module ComplexNumbers {
  import opened Reals

  datatype Complex = Complex(re: real, im: real)

  const ZERO := Complex(0.0, 0.0)
  const ONE := Complex(1.0, 0.0)
  const TWO := Complex(2.0, 0.0)
  const MINUS_ONE := Complex(-1.0, 0.0)
  const I := Complex(0.0, 1.0)

  function Add(a: Complex, b: Complex): Complex {
    Complex(a.re + b.re, a.im + b.im)
  }

  function Neg(a: Complex): Complex {
    Complex(-a.re, -a.im)
  }

  function Sub(a: Complex, b: Complex): Complex {
    Complex(a.re - b.re, a.im - b.im)
  }

  function Mul(a: Complex, b: Complex): Complex {
    Complex(a.re * b.re - a.im * b.im, a.re * b.im + a.im * b.re)
  }

  function Scale(a: Complex, k: real): Complex {
    Complex(a.re * k, a.im * k)
  }

  function Conj(a: Complex): Complex {
    Complex(a.re, -a.im)
  }

  function NormSq(a: Complex): real {
    a.re * a.re + a.im * a.im
  }

  lemma SquaresPositive(x: real, y: real)
    ensures x * x >= 0.0
    ensures x != 0.0 || y != 0.0 ==> x * x + y * y > 0.0
  {
    assert x * x >= 0.0 && y * y >= 0.0;
    if x != 0.0 {
      assert x * x > 0.0;
    } else if y != 0.0 {
      assert y * y > 0.0;
    }
  }

  lemma NormSqPositive(a: Complex)
    requires a != ZERO
    ensures NormSq(a) > 0.0
  {
    calc {
      NormSq(a);
      a.re * a.re + a.im * a.im;
    > { SquaresPositive(a.re, a.im); }
      0.0;
    }
  }

  /** Complex division; `Mul(Div(a, b), b) == a` is proved in DivMul. */
  function Div(a: Complex, b: Complex): Complex
    requires b != ZERO
  {
    NormSqPositive(b);
    Complex((a.re * b.re + a.im * b.im) / NormSq(b), (a.im * b.re - a.re * b.im) / NormSq(b))
  }

  lemma QuotientSum(p: real, q: real, u: real, v: real, d: real)
    requires d > 0.0
    ensures (p / d) * u + (q / d) * v == (p * u + q * v) / d
    ensures (p / d) * u - (q / d) * v == (p * u - q * v) / d
  {
  }

  lemma QuotientTimes(x: real, y: real, u: real, v: real, d: real)
    requires d > 0.0 && d == u * u + v * v
    ensures (x * u + y * v) / d * u - (y * u - x * v) / d * v == x
    ensures (x * u + y * v) / d * v + (y * u - x * v) / d * u == y
  {
    var p, q := x * u + y * v, y * u - x * v;
    QuotientSum(p, q, u, v, d);
    QuotientSum(p, q, v, u, d);
    assert p * u - q * v == x * d;
    assert p * v + q * u == y * d;
    QuotientOfProduct(x, d);
    QuotientOfProduct(y, d);
  }

  lemma DivMul(a: Complex, b: Complex)
    requires b != ZERO
    ensures Mul(Div(a, b), b) == a
  {
    NormSqPositive(b);
    QuotientTimes(a.re, a.im, b.re, b.im, NormSq(b));
  }

  lemma NormSqMul(a: Complex, b: Complex)
    ensures NormSq(Mul(a, b)) == NormSq(a) * NormSq(b)
  {
  }

  lemma MulAssoc(a: Complex, b: Complex, c: Complex)
    ensures Mul(Mul(a, b), c) == Mul(a, Mul(b, c))
  {
  }

  lemma MulAdd(a: Complex, b: Complex, c: Complex)
    ensures Mul(Add(a, b), c) == Add(Mul(a, c), Mul(b, c))
    ensures Mul(c, Add(a, b)) == Add(Mul(c, a), Mul(c, b))
  {
  }

  lemma SubTimes(z: Complex, w: Complex, c: Complex)
    ensures Mul(Sub(z, w), c) == Add(Mul(c, z), Mul(Neg(w), c))
  {
  }

  /** Multiplying by (z - w) commutes with one more step of Horner's rule. */
  lemma HornerStep(z: Complex, w: Complex, e: Complex, c0: Complex, carry: Complex)
    ensures Add(Mul(Add(Mul(Sub(z, w), e), c0), z), Add(Mul(Neg(w), c0), carry))
         == Add(Mul(Sub(z, w), Add(Mul(e, z), c0)), carry)
  {
    var d := Sub(z, w);
    MulAdd(Mul(d, e), c0, z);
    MulAssoc(d, e, z);
    MulAdd(Mul(e, z), c0, d);
    SubTimes(z, w, c0);
  }

  lemma MulCommutes(a: Complex, b: Complex)
    ensures Mul(a, b) == Mul(b, a)
  {
  }

  lemma MulSwap(a: Complex, b: Complex, c: Complex)
    ensures Mul(a, Mul(b, c)) == Mul(b, Mul(a, c))
  {
    MulAssoc(a, b, c);
    MulCommutes(a, b);
    MulAssoc(b, a, c);
  }

  lemma AddSwap(x: Complex, y: Complex, z: Complex, q: Complex)
    ensures Add(Add(x, y), Add(z, q)) == Add(Add(x, z), Add(y, q))
  {
  }

  /** Two factor steps on neighbouring coefficients commute. */
  lemma TwoFactors(a: Complex, b: Complex, c: Complex, p: Complex, q: Complex)
    ensures Add(Mul(Neg(b), Add(Mul(Neg(a), c), p)), Add(Mul(Neg(a), p), q))
         == Add(Mul(Neg(a), Add(Mul(Neg(b), c), p)), Add(Mul(Neg(b), p), q))
  {
    var x, y := Neg(a), Neg(b);
    MulAdd(Mul(x, c), p, y);
    MulAdd(Mul(y, c), p, x);
    MulSwap(x, y, c);
    AddSwap(Mul(y, Mul(x, c)), Mul(y, p), Mul(x, p), q);
  }

  lemma ConjFactor(w: Complex, c: Complex, p: Complex)
    ensures Conj(Add(Mul(Neg(w), c), p)) == Add(Mul(Neg(Conj(w)), Conj(c)), Conj(p))
  {
  }

  lemma DivConj(a: Complex, b: Complex)
    requires b != ZERO
    ensures Conj(b) != ZERO && Div(Conj(a), Conj(b)) == Conj(Div(a, b))
  {
    assert b == Conj(Conj(b));
    NormSqPositive(b);
    var d := NormSq(b);
    assert NormSq(Conj(b)) == d;
    NegQuotient(a.im * b.re - a.re * b.im, d);
  }

  lemma NegQuotient(x: real, d: real)
    requires d > 0.0
    ensures (-x) / d == -(x / d)
  {
  }

  lemma NegHorner(e: Complex, z: Complex, x: Complex)
    ensures Add(Mul(Neg(e), z), Neg(x)) == Neg(Add(Mul(e, z), x))
  {
  }
}
