/**
 The frequency response of a finished design. The digital filter takes at each point of the plane the value that the
 analogue prototype takes at the corresponding point, scaled by the corner; a Butterworth design is maximally flat.
 */
module ZFilterResponse {
  import opened Reals
  import opened ComplexNumbers
  import opened Polynomials
  import opened ZFilterDesign

  // ----- the bilinear transform maps the prototype's response to the filter's

  lemma MulSub(a: Complex, b: Complex, c: Complex)
    ensures Mul(c, Sub(a, b)) == Sub(Mul(c, a), Mul(c, b)) && Mul(Sub(a, b), c) == Sub(Mul(a, c), Mul(b, c))
  {
  }

  lemma OneMore(z: Complex, d: Complex)
    ensures Mul(Sub(z, Complex(-1.0, 0.0)), d) == Add(Mul(z, d), d)
  {
  }

  /** z and sigma correspond, and so do the pole q and p: one factor of the two transfer functions. */
  lemma FactorsCorrespond(z: Complex, sigma: Complex, q: Complex, p: Complex)
    requires PolePlaced(z, sigma) && PolePlaced(q, p)
    ensures Mul(Sub(z, MINUS_ONE), Sub(sigma, p)) == Mul(Sub(z, q), Sub(TWO, p))
  {
    hide Mul;
    var a, b := Sub(TWO, p), Sub(TWO, sigma);
    assert Sub(a, b) == Sub(sigma, p);
    MulSub(a, b, z);
    MulSub(z, q, a);
    OneMore(z, Sub(sigma, p));
  }

  lemma RegroupProducts(a: Complex, b: Complex, c: Complex, d: Complex)
    ensures Mul(Mul(a, b), Mul(c, d)) == Mul(Mul(a, c), Mul(b, d))
  {
    MulAssoc(a, b, Mul(c, d));
    MulSwap(b, c, d);
    MulAssoc(a, c, Mul(b, d));
  }

  function Scaled(s: seq<Complex>, w: real): (r: seq<Complex>)
    ensures |r| == |s|
  {
    seq(|s|, i requires 0 <= i < |s| => Scale(s[i], w))
  }

  /** The transfer functions agree up to the constant that is the value of the scaled prototype at 2. */
  lemma {:induction false} ResponseCorresponds(zeros: seq<Complex>, poles: seq<Complex>, proto: seq<Complex>, w: real,
                                               z: Complex, sigma: Complex)
    requires |zeros| == |poles| && (forall i :: 0 <= i < |zeros| ==> zeros[i] == MINUS_ONE)
    requires Placed(poles, proto, w) && PolePlaced(z, sigma)
    ensures Mul(RootProduct(zeros, z), RootProduct(Scaled(proto, w), sigma))
         == Mul(RootProduct(poles, z), RootProduct(Scaled(proto, w), TWO))
  {
    var s := Scaled(proto, w);
    if zeros == [] {
    } else {
      var n := |zeros| - 1;
      assert s[..n] == Scaled(proto[..n], w);
      ResponseCorresponds(zeros[..n], poles[..n], proto[..n], w, z, sigma);
      assert PolePlaced(poles[n], s[n]);
      FactorsCorrespond(z, sigma, poles[n], s[n]);
      RegroupProducts(RootProduct(zeros[..n], z), Sub(z, MINUS_ONE), RootProduct(s[..n], sigma), Sub(sigma, s[n]));
      RegroupProducts(RootProduct(poles[..n], z), Sub(z, poles[n]), RootProduct(s[..n], TWO), Sub(TWO, s[n]));
    }
  }

  // ----- the factor theorem

  /** The quotient by (z - r), by synthetic division. */
  function Quotiented(c: seq<Complex>, r: Complex): (q: seq<Complex>)
    ensures |q| == if c == [] then 0 else |c| - 1
  {
    if |c| <= 1 then [] else [Eval(c[1..], r)] + Quotiented(c[1..], r)
  }

  lemma DivisionStep(e: Complex, d: Complex, z: Complex, r: Complex, q: Complex, c0: Complex)
    requires Sub(e, d) == Mul(Sub(z, r), q)
    ensures Sub(Add(Mul(e, z), c0), Add(Mul(d, r), c0)) == Mul(Sub(z, r), Add(Mul(q, z), d))
  {
    DivisionCore(e, d, z, r, q);
  }

  lemma DivisionCore(e: Complex, d: Complex, z: Complex, r: Complex, q: Complex)
    requires Sub(e, d) == Mul(Sub(z, r), q)
    ensures Sub(Mul(e, z), Mul(d, r)) == Mul(Sub(z, r), Add(Mul(q, z), d))
  {
    assert e == Add(Mul(Sub(z, r), q), d);
    MulAdd(Mul(Sub(z, r), q), d, z);
    MulAssoc(Sub(z, r), q, z);
    MulAdd(Mul(q, z), d, Sub(z, r));
    SubTimes(z, r, d);
    MulCommutes(d, r);
    NegTimes(r, d);
  }

  lemma NegTimes(a: Complex, b: Complex)
    ensures Mul(Neg(a), b) == Neg(Mul(a, b))
  {
  }

  lemma {:induction false} DivisionIdentity(c: seq<Complex>, r: Complex, z: Complex)
    requires c != []
    ensures Sub(Eval(c, z), Eval(c, r)) == Mul(Sub(z, r), Eval(Quotiented(c, r), z))
  {
    if |c| == 1 {
      assert c[1..] == [];
    } else {
      DivisionIdentity(c[1..], r, z);
      var q := Quotiented(c, r);
      assert q[1..] == Quotiented(c[1..], r);
      DivisionStep(Eval(c[1..], z), Eval(c[1..], r), z, r, Eval(q[1..], z), c[0]);
    }
  }

  lemma {:induction false} QuotientLeads(c: seq<Complex>, r: Complex)
    requires |c| >= 2
    ensures Quotiented(c, r)[|c| - 2] == c[|c| - 1]
  {
    if |c| == 2 {
      assert c[1..][1..] == [] && Quotiented(c[1..], r) == [];
      assert Eval(c[1..], r) == Add(Mul(ZERO, r), c[1]);
    } else {
      QuotientLeads(c[1..], r);
    }
  }

  lemma NoZeroDivisors(a: Complex, b: Complex)
    requires a != ZERO && Mul(a, b) == ZERO
    ensures b == ZERO
  {
    NormSqMul(a, b);
    NormSqPositive(a);
    if b != ZERO {
      NormSqPositive(b);
      PositiveProduct(NormSq(a), NormSq(b));
    }
  }

  lemma PositiveProduct(x: real, y: real)
    requires x > 0.0 && y > 0.0
    ensures x * y > 0.0
  {
  }

  ghost predicate Distinct(s: seq<Complex>) {
    forall i, j :: 0 <= i < j < |s| ==> s[i] != s[j]
  }

  /** A polynomial with leading coefficient 1 and as many different roots as its degree is their product. */
  lemma {:induction false} FactorTheorem(c: seq<Complex>, roots: seq<Complex>, z: Complex)
    requires |c| == |roots| + 1 && c[|roots|] == ONE && Distinct(roots)
    requires forall i :: 0 <= i < |roots| ==> Eval(c, roots[i]) == ZERO
    ensures Eval(c, z) == RootProduct(roots, z)
    decreases |roots|
  {
    if roots == [] {
      assert c[1..] == [];
    } else {
      var n := |roots| - 1;
      var r, rest := roots[n], roots[..n];
      var q := Quotiented(c, r);
      QuotientLeads(c, r);
      forall i | 0 <= i < n ensures Eval(q, rest[i]) == ZERO {
        assert roots[i] != roots[n];
        DivisionIdentity(c, r, rest[i]);
        NoZeroDivisors(Sub(rest[i], r), Eval(q, rest[i]));
      }
      FactorTheorem(q, rest, z);
      DivisionIdentity(c, r, z);
      MulCommutes(Sub(z, r), Eval(q, z));
    }
  }

  // ----- the points of the Butterworth circle are the roots of z^2n + (-1)^n

  function Power(z: Complex, m: nat): Complex {
    if m == 0 then ONE else Mul(Power(z, m - 1), z)
  }

  lemma {:induction false} PowerOfPoint(polar: int -> Complex, n: nat, k: int, m: nat)
    requires OnUnitCircle(polar, n)
    ensures Power(polar(k), m) == polar(k * m)
  {
    hide OnUnitCircle, Mul;
    if m == 0 {
      Anchors(polar, n, k);
    } else {
      PowerOfPoint(polar, n, k, m - 1);
      AddAngles(polar, n, k * (m - 1), k);
      assert k * (m - 1) + k == k * m;
    }
  }

  lemma {:induction false} WholeTurns(polar: int -> Complex, n: nat, k: int, m: nat)
    requires OnUnitCircle(polar, n)
    ensures polar(k + 4 * n * m) == polar(k)
  {
    hide OnUnitCircle;
    if m == 0 {
    } else {
      WholeTurns(polar, n, k, m - 1);
      Turns(polar, n, k + 4 * n * (m - 1));
      assert 4 * n * m == 4 * n * (m - 1) + 4 * n;
    }
  }

  /** The points at the angles start, start + 2, and so on. */
  function Arc(polar: int -> Complex, start: int, m: nat): (r: seq<Complex>)
    ensures |r| == m
  {
    seq(m, i requires 0 <= i < m => polar(start + 2 * i))
  }

  lemma ArcIsLeftHalf(polar: int -> Complex, n: nat)
    requires n >= 1
    ensures Arc(polar, n + 1, n) == Circle(polar, n)[(n + 1) / 2..(n + 1) / 2 + n]
  {
    var a, c, first := Arc(polar, n + 1, n), Circle(polar, n), (n + 1) / 2;
    forall i | 0 <= i < n ensures a[i] == c[first + i] {
      assert HalfSteps(n, first + i) == n + 1 + 2 * i;
    }
  }

  /** Sign(n) is (-1)^n. */
  function Sign(n: nat): real {
    if n % 2 == 0 then 1.0 else -1.0
  }

  lemma WholeAngle(n: nat, k: int, m: int, rest: int)
    requires k == 2 * m + rest
    ensures k * (2 * n) == 2 * n * rest + 4 * n * m
  {
  }

  /** Every candidate is a root. */
  lemma CandidatePower(polar: int -> Complex, n: nat, j: nat)
    requires OnUnitCircle(polar, n)
    ensures Power(polar(n + 1 + 2 * j), 2 * n) == Complex(-Sign(n), 0.0)
  {
    hide OnUnitCircle, Power, Mul, NormSq;
    var k := n + 1 + 2 * j;
    PowerOfPoint(polar, n, k, 2 * n);
    Anchors(polar, n, 0);
    Turns(polar, n, 0);
    if n % 2 == 1 {
      var m := (n + 1) / 2 + j;
      WholeAngle(n, k, m, 0);
      WholeTurns(polar, n, 0, m);
    } else {
      var m := n / 2 + j;
      WholeAngle(n, k, m, 1);
      WholeTurns(polar, n, 2 * n, m);
    }
  }

  lemma NoReturn(polar: int -> Complex, n: nat, h: int)
    requires OnUnitCircle(polar, n) && 0 < h < 2 * n
    ensures polar(h) != ONE
  {
    hide OnUnitCircle, Mul;
    Anchors(polar, n, n + h);
    AddAngles(polar, n, n, h);
    QuarterTurns(I);
    MulCommutes(I, ONE);
  }

  lemma NoReturnEither(polar: int -> Complex, n: nat, k: int)
    requires OnUnitCircle(polar, n) && 2 * n < k < 4 * n
    ensures polar(k) != ONE
  {
    hide OnUnitCircle, Mul, NormSq;
    var h := 4 * n - k;
    PolarConj(polar, n, h);
    NoReturn(polar, n, h);
    assert polar(k) == Conj(polar(h));
  }

  lemma NotYetRound(polar: int -> Complex, n: nat, k: int)
    requires OnUnitCircle(polar, n) && 0 < k < 4 * n
    ensures polar(k) != ONE
  {
    hide OnUnitCircle, Mul, NormSq;
    if k < 2 * n {
      NoReturn(polar, n, k);
    } else if k > 2 * n {
      NoReturnEither(polar, n, k);
    } else {
      Turns(polar, n, 0);
    }
  }

  /** No point less than a whole turn away is the same. */
  lemma PointsDiffer(polar: int -> Complex, n: nat, a: int, k: int)
    requires OnUnitCircle(polar, n) && 0 < k < 4 * n
    ensures polar(a) != polar(a + k)
  {
    hide OnUnitCircle, Mul, NormSq;
    Anchors(polar, n, k);
    AddAngles(polar, n, -a, a);
    AddAngles(polar, n, -a, a + k);
    NotYetRound(polar, n, k);
  }

  /** z^m + d, for m >= 1. */
  function Binomial(d: Complex, m: nat): seq<Complex>
    requires m >= 1
  {
    [d] + seq(m - 1, _ => ZERO) + [ONE]
  }

  lemma ZeroTimes(z: Complex)
    ensures Mul(Complex(0.0, 0.0), z) == Complex(0.0, 0.0)
  {
  }

  lemma {:induction false} EvalMonomial(k: nat, z: Complex)
    ensures Eval(seq(k, _ => ZERO) + [ONE], z) == Power(z, k)
  {
    hide Mul;
    var c := seq(k, _ => ZERO) + [ONE];
    if k == 0 {
      assert c == [ONE] && c[1..] == [];
      ZeroTimes(z);
    } else {
      EvalMonomial(k - 1, z);
      assert c[1..] == seq(k - 1, _ => ZERO) + [ONE];
      assert c[0] == ZERO;
    }
  }

  lemma EvalBinomial(d: Complex, m: nat, z: Complex)
    requires m >= 1
    ensures Eval(Binomial(d, m), z) == Add(Power(z, m), d)
  {
    assert Binomial(d, m)[1..] == seq(m - 1, _ => ZERO) + [ONE];
    EvalMonomial(m - 1, z);
  }

  lemma ArcDistinct(polar: int -> Complex, n: nat)
    requires OnUnitCircle(polar, n)
    ensures Distinct(Arc(polar, n + 1, 2 * n))
  {
    hide OnUnitCircle;
    var s := Arc(polar, n + 1, 2 * n);
    forall i, j | 0 <= i < j < 2 * n ensures s[i] != s[j] {
      PointsDiffer(polar, n, n + 1 + 2 * i, 2 * (j - i));
    }
  }

  /** The product over the whole circle. */
  lemma WholeCircle(polar: int -> Complex, n: nat, z: Complex)
    requires OnUnitCircle(polar, n)
    ensures RootProduct(Arc(polar, n + 1, 2 * n), z) == Add(Power(z, 2 * n), Complex(Sign(n), 0.0))
  {
    hide OnUnitCircle;
    var s, d := Arc(polar, n + 1, 2 * n), Complex(Sign(n), 0.0);
    Anchors(polar, n, 0);
    forall i | 0 <= i < 2 * n ensures Eval(Binomial(d, 2 * n), s[i]) == ZERO {
      EvalBinomial(d, 2 * n, s[i]);
      CandidatePower(polar, n, i);
    }
    ArcDistinct(polar, n);
    FactorTheorem(Binomial(d, 2 * n), s, z);
    EvalBinomial(d, 2 * n, z);
  }

  // ----- the left half alone: maximal flatness

  lemma {:induction false} RootProductAppend(s: seq<Complex>, t: seq<Complex>, z: Complex)
    ensures RootProduct(s + t, z) == Mul(RootProduct(s, z), RootProduct(t, z))
  {
    hide Mul;
    if t == [] {
      assert s + t == s;
      TimesOne(RootProduct(s, z));
    } else {
      var n := |t| - 1;
      RootProductAppend(s, t[..n], z);
      assert s + t == (s + t[..n]) + [t[n]];
      RootProductSnoc(s + t[..n], t[n], z);
      MulAssoc(RootProduct(s, z), RootProduct(t[..n], z), Sub(z, t[n]));
    }
  }

  lemma TimesOne(z: Complex)
    ensures Mul(z, Complex(1.0, 0.0)) == z
  {
  }

  lemma MirroredDistance(w: real, x: Complex)
    ensures NormSq(Sub(Complex(0.0, w), Neg(Conj(x)))) == NormSq(Sub(Complex(0.0, w), x))
  {
  }

  /** From a point on the imaginary axis a list and its mirror image are equally far away. */
  lemma {:induction false} MirroredProduct(s: seq<Complex>, t: seq<Complex>, w: real)
    requires |s| == |t| && forall i :: 0 <= i < |s| ==> t[i] == Neg(Conj(s[i]))
    ensures NormSq(RootProduct(t, Complex(0.0, w))) == NormSq(RootProduct(s, Complex(0.0, w)))
  {
    hide Mul, NormSq;
    var z := Complex(0.0, w);
    if s == [] {
    } else {
      var n := |s| - 1;
      MirroredProduct(s[..n], t[..n], w);
      MirroredDistance(w, s[n]);
      NormSqMul(RootProduct(s[..n], z), Sub(z, s[n]));
      NormSqMul(RootProduct(t[..n], z), Sub(z, t[n]));
    }
  }

  /** The right half of the circle is the mirror image of the left one, backwards. */
  lemma RightHalfMirrored(polar: int -> Complex, n: nat, w: real)
    requires OnUnitCircle(polar, n)
    ensures var z := Complex(0.0, w);
            NormSq(RootProduct(Arc(polar, 3 * n + 1, n), z)) == NormSq(RootProduct(Arc(polar, n + 1, n), z))
  {
    hide OnUnitCircle, NormSq, RootProduct;
    var left, right := Arc(polar, n + 1, n), Arc(polar, 3 * n + 1, n);
    var back := seq(n, i requires 0 <= i < n => left[n - 1 - i]);
    forall i | 0 <= i < n ensures right[i] == Neg(Conj(back[i])) {
      var k := n + 1 + 2 * (n - 1 - i);
      assert back[i] == polar(k);
      PolarConj(polar, n, k);
      Turns(polar, n, -k);
      Turns(polar, n, 2 * n - k);
      assert 3 * n + 1 + 2 * i == 2 * n - k + 4 * n;
    }
    MirroredProduct(back, right, w);
    ReversePermutes(left, back);
    RootProductPermuted(left, back, Complex(0.0, w));
  }

  function RealPower(x: real, m: nat): real {
    if m == 0 then 1.0 else Product(RealPower(x, m - 1), x)
  }

  lemma PowerStep(p: real, w: real)
    ensures Mul(Mul(Complex(p, 0.0), Complex(0.0, w)), Complex(0.0, w)) == Complex(-Product(Product(p, w), w), 0.0)
  {
  }

  lemma {:induction false} ImaginaryPower(w: real, n: nat)
    ensures Power(Complex(0.0, w), 2 * n) == Complex(Sign(n) * RealPower(w, 2 * n), 0.0)
  {
    hide Mul;
    var z := Complex(0.0, w);
    if n == 0 {
    } else {
      ImaginaryPower(w, n - 1);
      var p := Sign(n - 1) * RealPower(w, 2 * n - 2);
      assert Power(z, 2 * n - 1) == Mul(Power(z, 2 * n - 2), z);
      assert Power(z, 2 * n) == Mul(Mul(Complex(p, 0.0), z), z);
      PowerStep(p, w);
      assert RealPower(w, 2 * n) == Product(Product(RealPower(w, 2 * n - 2), w), w);
      NegatedPower(Sign(n - 1), RealPower(w, 2 * n - 2), w);
    }
  }

  lemma NegatedPower(s: real, p: real, w: real)
    requires s == 1.0 || s == -1.0
    ensures -Product(Product(s * p, w), w) == -s * Product(Product(p, w), w)
  {
  }

  lemma {:induction false} EvenPowerNonneg(w: real, n: nat)
    ensures RealPower(w, 2 * n) >= 0.0
  {
    if n == 0 {
    } else {
      EvenPowerNonneg(w, n - 1);
      var p := RealPower(w, 2 * n - 2);
      assert RealPower(w, 2 * n) == Product(Product(p, w), w);
      Associates(p, w, w);
      SquareSign(w);
      Monotone(p, 0.0, Square(w));
      Unit(p);
    }
  }

  lemma NormOfSum(s: real, p: real)
    requires s == 1.0 || s == -1.0
    ensures NormSq(Add(Complex(s * p, 0.0), Complex(s, 0.0))) == Square(1.0 + p)
  {
  }

  /** The Butterworth prototype is maximally flat: at i w the squared distances to its poles multiply to 1 + w^2n. */
  lemma MaximallyFlat(polar: int -> Complex, n: nat, w: real)
    requires OnUnitCircle(polar, n)
    ensures NormSq(RootProduct(Arc(polar, n + 1, n), Complex(0.0, w))) == 1.0 + RealPower(w, 2 * n)
  {
    hide OnUnitCircle, NormSq, RootProduct;
    var z, left, right := Complex(0.0, w), Arc(polar, n + 1, n), Arc(polar, 3 * n + 1, n);
    var x, y := NormSq(RootProduct(left, z)), 1.0 + RealPower(w, 2 * n);
    assert left + right == Arc(polar, n + 1, 2 * n);
    RootProductAppend(left, right, z);
    NormSqMul(RootProduct(left, z), RootProduct(right, z));
    RightHalfMirrored(polar, n, w);
    WholeCircle(polar, n, z);
    ImaginaryPower(w, n);
    NormOfSum(Sign(n), RealPower(w, 2 * n));
    EvenPowerNonneg(w, n);
    NormSqNonneg(RootProduct(left, z));
    SameSquares(x, y);
  }

  lemma NormSqNonneg(a: Complex)
    ensures NormSq(a) >= 0.0
  {
    SquaresPositive(a.re, a.im);
  }

  lemma SameSquares(x: real, y: real)
    requires x >= 0.0 && y >= 0.0 && x * x == Square(y)
    ensures x == y
  {
    SquareMonotone(x, y);
    SquareMonotone(y, x);
  }

  // ----- the response of the recurrence

  lemma ScaledFactor(w: real, v: Complex, p: Complex)
    ensures NormSq(Sub(Scale(v, w), Scale(p, w))) == Product(Square(w), NormSq(Sub(v, p)))
  {
    assert Sub(Scale(v, w), Scale(p, w)) == Scale(Sub(v, p), w);
    ScaledNorm(w, Sub(v, p));
  }

  lemma ScaledNorm(w: real, a: Complex)
    ensures NormSq(Scale(a, w)) == Product(Square(w), NormSq(a))
  {
  }

  /** Scaling prototype and frequency alike multiplies all responses by one number. */
  lemma {:induction false} ScaledProduct(proto: seq<Complex>, w: real, v: Complex)
    ensures NormSq(RootProduct(Scaled(proto, w), Scale(v, w)))
         == Product(RealPower(Square(w), |proto|), NormSq(RootProduct(proto, v)))
  {
    hide Mul, NormSq;
    var s := Scaled(proto, w);
    if proto == [] {
      OneNorm();
    } else {
      var n := |proto| - 1;
      var p := proto[n];
      assert s[..n] == Scaled(proto[..n], w);
      ScaledProduct(proto[..n], w, v);
      ScaledFactor(w, v, p);
      NormSqMul(RootProduct(s[..n], Scale(v, w)), Sub(Scale(v, w), s[n]));
      NormSqMul(RootProduct(proto[..n], v), Sub(v, p));
      FourWay(RealPower(Square(w), n), NormSq(RootProduct(proto[..n], v)), Square(w), NormSq(Sub(v, p)));
    }
  }

  lemma OneNorm()
    ensures NormSq(Complex(1.0, 0.0)) == 1.0
  {
  }

  lemma FourWay(a: real, b: real, c: real, d: real)
    ensures Product(a, b) * Product(c, d) == Product(Product(a, c), b * d)
  {
  }

  lemma {:induction false} PowerPositive(x: real, n: nat)
    requires x > 0.0
    ensures RealPower(x, n) > 0.0
  {
    if n == 0 {
    } else {
      PowerPositive(x, n - 1);
      Positive(RealPower(x, n - 1), x);
    }
  }

  lemma {:induction false} AwayFromRoots(s: seq<Complex>, z: Complex)
    requires forall i :: 0 <= i < |s| ==> s[i] != z
    ensures NormSq(RootProduct(s, z)) > 0.0
  {
    hide Mul, NormSq;
    if s == [] {
      OneNorm();
    } else {
      var n := |s| - 1;
      AwayFromRoots(s[..n], z);
      NormSqPositive(Sub(z, s[n]));
      NormSqMul(RootProduct(s[..n], z), Sub(z, s[n]));
      PositiveProduct(NormSq(RootProduct(s[..n], z)), NormSq(Sub(z, s[n])));
    }
  }

  /** The arithmetic of the response: everything but the quotient of the prototype's products cancels. */
  lemma CancelCorner(n: real, d: real, n1: real, d1: real, k: real, u: real, p: real, p0: real, g: real)
    requires n * Product(u, p) == d * k && n1 * Product(u, p0) == d1 * k
    requires n1 == g * d1 && d1 > 0.0 && u > 0.0
    ensures n * p == g * (d * p0)
  {
    var a, b := Product(u, p), Product(u, p0);
    assert (g * d1) * b == d1 * k;
    CancelFactor(g * b, k, d1);
    assert n * a == d * (g * b);
    CancelFactor(n * p, g * (d * p0), u);
  }

  lemma CancelFactor(x: real, y: real, c: real)
    requires c > 0.0 && c * x == c * y
    ensures x == y
  {
    Cancel(x, y, c);
  }

  lemma GainNorm(gain: Complex, num: Complex, den: Complex)
    requires gain.im == 0.0 && Mul(gain, den) == num && den.re > 0.0
    ensures NormSq(num) == Square(gain.re) * NormSq(den) && NormSq(den) > 0.0
  {
    NormSqMul(gain, den);
    NormSqPositive(den);
    RealNorm(gain.re);
    assert gain == Complex(gain.re, 0.0);
  }

  lemma RealNorm(x: real)
    ensures NormSq(Complex(x, 0.0)) == Square(x)
  {
  }

  /** What a design at the corner w comes to: the prototype's poles in their places, and the gain divided out. */
  ghost predicate Designed(xc: seq<real>, yc: seq<real>, gain: real, zeros: seq<Complex>, poles: seq<Complex>,
                           proto: seq<Complex>, w: real) {
    && w > 0.0 && LeftHalfPlane(proto) && Placed(poles, proto, w) && Digital(zeros, poles)
    && Realises(xc, yc, zeros, poles) && IsGain(Complex(gain, 0.0), zeros, poles)
  }

  /** The squared response of the recurrence at z, times g2, equals the other one: |x(z)|^2 a == gain^2 |y(z)|^2 b. */
  ghost predicate Responds(xc: seq<real>, yc: seq<real>, gain: real, z: Complex, a: real, b: real) {
    NormSq(Eval(AsPolynomial(xc), z)) * a == Square(gain) * (NormSq(Eval(AsPolynomial(yc), z)) * b)
  }

  lemma NegNorm(a: Complex)
    ensures NormSq(Neg(a)) == NormSq(a)
  {
  }

  /**
   At the point z that corresponds to the frequency v, in units of the corner, the recurrence responds as the analogue
   prototype does at v: the squared responses relative to DC are both |A(0)|^2 / |A(i v)|^2, where A is the product over
   the prototype's poles.
   */
  lemma PrototypeResponse(xc: seq<real>, yc: seq<real>, gain: real, zeros: seq<Complex>, poles: seq<Complex>,
                          proto: seq<Complex>, w: real, z: Complex, v: real)
    requires Designed(xc, yc, gain, zeros, poles, proto, w) && PolePlaced(z, Scale(Complex(0.0, v), w))
    ensures Responds(xc, yc, gain, z, NormSq(RootProduct(proto, Complex(0.0, v))),
                     NormSq(RootProduct(proto, Complex(0.0, 0.0))))
  {
    hide Mul, NormSq, Digital, Realises, IsGain, Placed, RootProduct;
    AtFrequency(zeros, poles, proto, w, z, v);
    OneIsDc(w);
    AtFrequency(zeros, poles, proto, w, ONE, 0.0);
    Positive(w, w);
    PowerPositive(Square(w), |proto|);
    DcNorms(gain, zeros, poles);
    ResponseNorms(xc, yc, zeros, poles, z);
    CancelCorner(NormSq(RootProduct(zeros, z)), NormSq(RootProduct(poles, z)),
                 NormSq(RootProduct(zeros, ONE)), NormSq(RootProduct(poles, ONE)),
                 NormSq(RootProduct(Scaled(proto, w), TWO)), RealPower(Square(w), |proto|),
                 NormSq(RootProduct(proto, Complex(0.0, v))), NormSq(RootProduct(proto, Complex(0.0, 0.0))),
                 Square(gain));
  }

  lemma DcNorms(gain: real, zeros: seq<Complex>, poles: seq<Complex>)
    requires IsGain(Complex(gain, 0.0), zeros, poles)
    ensures NormSq(RootProduct(zeros, ONE)) == Square(gain) * NormSq(RootProduct(poles, ONE))
    ensures NormSq(RootProduct(poles, ONE)) > 0.0
  {
    hide NormSq, Mul, RootProduct;
    GainNorm(Complex(gain, 0.0), RootProduct(zeros, ONE), RootProduct(poles, ONE));
  }

  lemma ResponseNorms(xc: seq<real>, yc: seq<real>, zeros: seq<Complex>, poles: seq<Complex>, z: Complex)
    requires Realises(xc, yc, zeros, poles)
    ensures NormSq(Eval(AsPolynomial(xc), z)) == NormSq(RootProduct(zeros, z))
    ensures NormSq(Eval(AsPolynomial(yc), z)) == NormSq(RootProduct(poles, z))
  {
    hide NormSq, Feeds;
    NegNorm(RootProduct(poles, z));
  }

  lemma OneIsDc(w: real)
    ensures PolePlaced(Complex(1.0, 0.0), Scale(Complex(0.0, 0.0), w))
  {
  }

  lemma AtFrequency(zeros: seq<Complex>, poles: seq<Complex>, proto: seq<Complex>, w: real, z: Complex, v: real)
    requires Digital(zeros, poles) && Placed(poles, proto, w) && PolePlaced(z, Scale(Complex(0.0, v), w))
    ensures NormSq(RootProduct(zeros, z))
              * Product(RealPower(Square(w), |proto|), NormSq(RootProduct(proto, Complex(0.0, v))))
         == NormSq(RootProduct(poles, z)) * NormSq(RootProduct(Scaled(proto, w), TWO))
  {
    hide Mul, NormSq, RootProduct;
    var s, sigma := Scaled(proto, w), Scale(Complex(0.0, v), w);
    ResponseCorresponds(zeros, poles, proto, w, z, sigma);
    NormSqMul(RootProduct(zeros, z), RootProduct(s, sigma));
    NormSqMul(RootProduct(poles, z), RootProduct(s, TWO));
    ScaledProduct(proto, w, Complex(0.0, v));
  }

  /** A point of the unit circle other than -1 corresponds to a frequency: twice the tangent of half its angle. */
  lemma CircleCorresponds(z: Complex, w: real, v: real)
    requires NormSq(z) == 1.0 && z.re > -1.0 && (1.0 + z.re) * (w * v) == 2.0 * z.im
    ensures PolePlaced(z, Scale(Complex(0.0, v), w))
  {
    var t := w * v;
    assert Scale(Complex(0.0, v), w) == Complex(0.0, t);
    HalfAngle(z.re, z.im, t);
  }

  lemma TangentSide(d: real, s: real, t: real)
    requires d * t == 2.0 * s
    ensures d * (s * t) == 2.0 * (s * s)
  {
    assert d * (s * t) == s * (d * t);
  }

  lemma CosineSide(c: real, s: real)
    requires c * c + s * s == 1.0
    ensures (1.0 + c) * (2.0 - 2.0 * c) == 2.0 * (s * s)
  {
    assert (1.0 + c) * (2.0 - 2.0 * c) == 2.0 - 2.0 * (c * c);
  }

  lemma HalfAngle(c: real, s: real, t: real)
    requires c * c + s * s == 1.0 && c > -1.0 && (1.0 + c) * t == 2.0 * s
    ensures PolePlaced(Complex(c, s), Complex(0.0, t))
  {
    var d := 1.0 + c;
    TangentSide(d, s, t);
    CosineSide(c, s);
    CancelFactor(s * t, 2.0 - 2.0 * c, d);
    assert c * t + t == 2.0 * s;
    assert Sub(TWO, Complex(0.0, t)) == Complex(2.0, -t) && Add(TWO, Complex(0.0, t)) == Complex(2.0, t);
  }

  /** The Butterworth law: relative to DC the squared response is one over 1 + v^2n, one half at the corner v = 1. */
  lemma ButterworthResponse(xc: seq<real>, yc: seq<real>, gain: real, zeros: seq<Complex>, poles: seq<Complex>,
                            proto: seq<Complex>, w: real, order: nat, polar: int -> Complex, z: Complex, v: real)
    requires Designed(xc, yc, gain, zeros, poles, proto, w) && OnUnitCircle(polar, order)
    requires IsPrototype(BESSEL_POLES, Butterworth, order, polar, proto)
    requires NormSq(z) == 1.0 && z.re > -1.0 && (1.0 + z.re) * (w * v) == 2.0 * z.im
    ensures Responds(xc, yc, gain, z, 1.0 + RealPower(v, 2 * order), 1.0)
  {
    hide NormSq, OnUnitCircle, Designed, Responds;
    Anchors(polar, order, 0);
    ArcIsLeftHalf(polar, order);
    CircleCorresponds(z, w, v);
    PrototypeResponse(xc, yc, gain, zeros, poles, proto, w, z, v);
    MaximallyFlat(polar, order, v);
    MaximallyFlat(polar, order, 0.0);
    ZeroPower(2 * order);
  }

  lemma ZeroPower(n: nat)
    requires n >= 1
    ensures RealPower(0.0, n) == 0.0
  {
    Unit(RealPower(0.0, n - 1));
  }

  lemma {:induction false} OnePower(n: nat)
    ensures RealPower(1.0, n) == 1.0
  {
    if n == 0 {
    } else {
      OnePower(n - 1);
      Unit(1.0);
    }
  }

  // ----- the Bessel table

  function PairDistance(p: Complex, w: real): real {
    NormSq(Sub(Complex(0.0, w), p)) * NormSq(Sub(Complex(0.0, w), Conj(p)))
  }

  lemma PairProduct(p: Complex, q: Complex, w: real)
    ensures NormSq(RootProduct([p] + [Conj(p)] + [q] + [Conj(q)], Complex(0.0, w)))
         == PairDistance(p, w) * PairDistance(q, w)
  {
    hide Mul, NormSq;
    var z, p', q' := Complex(0.0, w), Conj(p), Conj(q);
    var one: seq<Complex>, two: seq<Complex>, three: seq<Complex> := [p], [p] + [p'], [p] + [p'] + [q];
    OneNorm();
    assert [] + [p] == one;
    RootProductSnoc([], p, z);
    RootProductSnoc(one, p', z);
    RootProductSnoc(two, q, z);
    RootProductSnoc(three, q', z);
    NormSqMul(ONE, Sub(z, p));
    NormSqMul(RootProduct(one, z), Sub(z, p'));
    NormSqMul(RootProduct(two, z), Sub(z, q));
    NormSqMul(RootProduct(three, z), Sub(z, q'));
  }

  /** The poles of order 4, which the program uses, put the half-power point at the corner, to ten digits. */
  lemma BesselHalfPower(polar: int -> Complex, proto: seq<Complex>)
    requires IsPrototype(BESSEL_POLES, Bessel, 4, polar, proto)
    ensures var at, dc := NormSq(RootProduct(proto, Complex(0.0, 1.0))), NormSq(RootProduct(proto, Complex(0.0, 0.0)));
            dc > 0.0 && Abs(at - 2.0 * dc) <= 0.0000000001 * dc
  {
    hide NormSq, RootProduct;
    var p, q := BESSEL_POLES[4], BESSEL_POLES[5];
    var none: seq<Complex> := BESSEL_POLES[4..4];
    assert none == [];
    assert WithConjugates(BESSEL_POLES, 4, 0, 1) == [p] + [Conj(p)];
    assert proto == [p] + [Conj(p)] + [q] + [Conj(q)];
    PairProduct(p, q, 1.0);
    PairProduct(p, q, 0.0);
    OrderFour();
  }

  lemma FirstPair()
    ensures PairDistance(Complex(-1.37006783055, 0.410249717494), 1.0)
         == 8.601185138086251600044363104444429797961558111296
    ensures PairDistance(Complex(-1.37006783055, 0.410249717494), 0.0)
         == 4.183623078878098192719435104444429797961558111296
  {
  }

  lemma SecondPair()
    ensures PairDistance(Complex(-0.995208764350, 1.25710573945), 1.0)
         == 6.429034228934925834514969822925036991700625000000
    ensures PairDistance(Complex(-0.995208764350, 1.25710573945), 0.0)
         == 6.608782939973080745274969822925036991700625000000
  {
  }

  lemma OrderFour()
    ensures var p, q := Complex(-1.37006783055, 0.410249717494), Complex(-0.995208764350, 1.25710573945);
            var at, dc := PairDistance(p, 1.0) * PairDistance(q, 1.0), PairDistance(p, 0.0) * PairDistance(q, 0.0);
            dc > 0.0 && Abs(at - 2.0 * dc) <= 0.0000000001 * dc
  {
    hide PairDistance;
    FirstPair();
    SecondPair();
  }
}
