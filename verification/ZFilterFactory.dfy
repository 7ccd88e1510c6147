/**
 Design of the digital low-pass filter: prototype poles in the s-plane, the bilinear transform to the z-plane,
 expansion into polynomials, and the recurrence coefficients with their DC gain.
 */
module ZFilterDesign {
  import opened ComplexNumbers
  import opened Polynomials
  import opened Options

  const EPS := 0.0000000001
  const PI := 3.14159265358979323846

  datatype Design = Bessel | Butterworth

  /** One member of each conjugate pair, for orders 1 to 10. */
  const BESSEL_POLES: seq<Complex> := [
    Complex(-1.00000000000, 0.00000000000),
    Complex(-1.10160133059, 0.636009824757),
    Complex(-1.32267579991, 0.00000000000),
    Complex(-1.04740916101, 0.999264436281),
    Complex(-1.37006783055, 0.410249717494),
    Complex(-0.995208764350, 1.25710573945),
    Complex(-1.50231627145, 0.00000000000),
    Complex(-1.38087732586, 0.717909587627),
    Complex(-0.957676548563, 1.47112432073),
    Complex(-1.57149040362, 0.320896374221),
    Complex(-1.38185809760, 0.971471890712),
    Complex(-0.930656522947, 1.66186326894),
    Complex(-1.68436817927, 0.00000000000),
    Complex(-1.61203876622, 0.589244506931),
    Complex(-1.37890321680, 1.19156677780),
    Complex(-0.909867780623, 1.83645135304),
    Complex(-1.75740840040, 0.272867575103),
    Complex(-1.63693941813, 0.822795625139),
    Complex(-1.37384121764, 1.38835657588),
    Complex(-0.892869718847, 1.99832584364),
    Complex(-1.85660050123, 0.00000000000),
    Complex(-1.80717053496, 0.512383730575),
    Complex(-1.65239648458, 1.03138956698),
    Complex(-1.36758830979, 1.56773371224),
    Complex(-0.878399276161, 2.14980052431),
    Complex(-1.92761969145, 0.241623471082),
    Complex(-1.84219624443, 0.727257597722),
    Complex(-1.66181024140, 1.22110021857),
    Complex(-1.36069227838, 1.73350574267),
    Complex(-0.865756901707, 2.29260483098)
  ]

  ghost predicate LeftHalfPlane(s: seq<Complex>) {
    forall i :: 0 <= i < |s| ==> s[i].re < 0.0
  }

  /** What setpole keeps of a list of candidates. */
  function Admitted(s: seq<Complex>): (r: seq<Complex>)
    ensures LeftHalfPlane(r)
  {
    if s == [] then []
    else Admitted(s[..|s| - 1]) + (if s[|s| - 1].re < 0.0 then [s[|s| - 1]] else [])
  }

  function Bilinear(p: Complex): Complex
    requires p != TWO
  {
    Div(Add(TWO, p), Sub(TWO, p))
  }

  /** Multiplies the factor (z - w) into the coefficients in place, from the top index down. */
  method MultIn(w: Complex, coeffs: array<Complex>)
    requires coeffs.Length > 0
    modifies coeffs
    ensures coeffs[..] == MulIn(old(coeffs[..]), w, ZERO)
  {
    var nw := Neg(w);
    ghost var was := coeffs[..];
    var i := coeffs.Length - 1;
    while i >= 1
      invariant 0 <= i < coeffs.Length
      invariant forall k :: 0 <= k <= i ==> coeffs[k] == was[k]
      invariant forall k :: i < k < coeffs.Length ==> coeffs[k] == MulIn(was, w, ZERO)[k]
    {
      coeffs[i] := Add(Mul(nw, coeffs[i]), coeffs[i - 1]);
      i := i - 1;
    }
    coeffs[0] := Mul(nw, coeffs[0]);
  }

  method EvalPoly(coeffs: array<Complex>, z: Complex) returns (sum: Complex)
    ensures sum == Eval(coeffs[..], z)
  {
    sum := ZERO;
    var i := coeffs.Length;
    while i > 0
      invariant 0 <= i <= coeffs.Length
      invariant sum == Eval(coeffs[i..], z)
    {
      i := i - 1;
      sum := Add(Mul(sum, z), coeffs[i]);
      assert coeffs[i..][1..] == coeffs[i + 1..];
    }
    assert coeffs[0..] == coeffs[..];
  }

  ghost predicate NearlyReal(c: seq<Complex>) {
    forall k :: 0 <= k < |c| ==> -EPS <= c[k].im <= EPS
  }

  lemma ConjClosedNearlyReal(roots: seq<Complex>)
    requires ConjClosed(roots)
    ensures NearlyReal(Expansion(roots))
  {
    forall k | 0 <= k <= |roots| ensures -EPS <= Expansion(roots)[k].im <= EPS {
      ExpansionReal(roots, k);
    }
  }

  /** The scan that makes the source give up on a coefficient that is not real. */
  method CheckReal(coeffs: array<Complex>) returns (ok: bool)
    ensures ok <==> NearlyReal(coeffs[..])
  {
    ok := true;
    var i := 0;
    while i < coeffs.Length
      invariant 0 <= i <= coeffs.Length
      invariant ok <==> NearlyReal(coeffs[..i])
    {
      assert coeffs[..i + 1] == coeffs[..i] + [coeffs[i]];
      if coeffs[i].im > EPS || -coeffs[i].im > EPS {
        ok := false;
      }
      i := i + 1;
    }
    assert coeffs[..i] == coeffs[..];
  }

  lemma ExpansionFacts(pz: seq<Complex>)
    ensures forall z :: Eval(Expansion(pz), z) == RootProduct(pz, z)
    ensures Expansion(pz)[|pz|] == ONE
    ensures ConjClosed(pz) ==> NearlyReal(Expansion(pz))
  {
    forall z ensures Eval(Expansion(pz), z) == RootProduct(pz, z) {
      ExpansionIsProduct(pz, z);
    }
    ExpansionIsProduct(pz, ZERO);
    if ConjClosed(pz) {
      ConjClosedNearlyReal(pz);
    }
  }

  /**
   The product of the factors as a polynomial. The source exits the program when a coefficient is not real;
   here that is ok == false.
   */
  method Expand(pz: seq<Complex>) returns (coeffs: array<Complex>, ok: bool)
    ensures fresh(coeffs) && coeffs.Length == |pz| + 1
    ensures coeffs[..] == Expansion(pz)
    ensures forall z :: Eval(coeffs[..], z) == RootProduct(pz, z)
    ensures coeffs[|pz|] == ONE
    ensures ok <==> NearlyReal(coeffs[..])
    ensures ConjClosed(pz) ==> ok
  {
    coeffs := new Complex[|pz| + 1](i => if i == 0 then ONE else ZERO);
    assert coeffs[..] == One(|pz|);
    var i := 0;
    while i < |pz|
      invariant 0 <= i <= |pz|
      invariant coeffs[..] == Expanded(pz[..i], |pz|)
    {
      assert pz[..i + 1] == pz[..i] + [pz[i]];
      ExpandedSnoc(pz[..i], pz[i], |pz|);
      MultIn(pz[i], coeffs);
      i := i + 1;
    }
    assert pz[..|pz|] == pz;
    ExpansionFacts(pz);
    assert coeffs[..][|pz|] == ONE;
    ok := CheckReal(coeffs);
  }

  // ----- what keeps a list conjugate-closed

  lemma PermutesConjClosed(s: seq<Complex>)
    requires multiset(ConjAll(s)) == multiset(s)
    ensures ConjClosed(s)
  {
    forall x ensures Balanced(s, x) {
      ConjCount(s, x);
    }
  }

  lemma RealListClosed(s: seq<Complex>)
    requires forall i :: 0 <= i < |s| ==> s[i].im == 0.0
    ensures ConjClosed(s)
  {
    assert ConjAll(s) == s;
    PermutesConjClosed(s);
  }

  lemma AddPairClosed(s: seq<Complex>, a: Complex)
    requires ConjClosed(s)
    ensures ConjClosed(s + [a] + [Conj(a)])
  {
    var t := s + [a] + [Conj(a)];
    assert multiset(t) == multiset(s) + multiset{a} + multiset{Conj(a)};
    forall x ensures Balanced(t, x) {
      assert Balanced(s, x);
      assert x == a <==> Conj(x) == Conj(a);
      assert x == Conj(a) <==> Conj(x) == a;
    }
  }

  lemma {:induction false} AdmittedCount(s: seq<Complex>, x: Complex)
    ensures multiset(Admitted(s))[x] == if x.re < 0.0 then multiset(s)[x] else 0
  {
    if s == [] {
    } else {
      var t, y := s[..|s| - 1], s[|s| - 1];
      AdmittedCount(t, x);
      assert s == t + [y];
      if y.re < 0.0 {
        assert Admitted(s) == Admitted(t) + [y];
      } else {
        assert Admitted(s) == Admitted(t);
      }
    }
  }

  /** Discarding the right half-plane keeps conjugates together. */
  lemma AdmittedClosed(s: seq<Complex>)
    requires ConjClosed(s)
    ensures ConjClosed(Admitted(s))
  {
    forall x ensures Balanced(Admitted(s), x) {
      assert Balanced(s, x);
      AdmittedCount(s, x);
      AdmittedCount(s, Conj(x));
    }
  }

  function MapAll(f: Complex -> Complex, s: seq<Complex>): (r: seq<Complex>)
    ensures |r| == |s|
  {
    seq(|s|, i requires 0 <= i < |s| => f(s[i]))
  }

  lemma MapAppend(f: Complex -> Complex, s: seq<Complex>, t: seq<Complex>)
    ensures MapAll(f, s + t) == MapAll(f, s) + MapAll(f, t)
  {
  }

  lemma MapInsert(f: Complex -> Complex, s: seq<Complex>, x: Complex, t: seq<Complex>)
    ensures multiset(MapAll(f, s + [x] + t)) == multiset(MapAll(f, s + t)) + multiset{f(x)}
  {
    MapAppend(f, s + [x], t);
    MapAppend(f, s, [x]);
    MapAppend(f, s, t);
    assert MapAll(f, [x]) == [f(x)];
  }

  lemma {:induction false} MapPermuted(f: Complex -> Complex, p: seq<Complex>, q: seq<Complex>)
    requires multiset(p) == multiset(q)
    ensures multiset(MapAll(f, p)) == multiset(MapAll(f, q))
    decreases |p|
  {
    assert |multiset(p)| == |p| && |multiset(q)| == |q|;
    if p == [] {
      assert q == [];
    } else {
      var x, p' := p[|p| - 1], p[..|p| - 1];
      assert p == p' + [x] + [];
      assert x in multiset(q);
      var s, t := SplitAt(q, x);
      assert multiset(p') == multiset(p) - multiset{x} == multiset(s + t);
      MapPermuted(f, p', s + t);
      MapInsert(f, p', x, []);
      MapInsert(f, s, x, t);
      assert p' + [] == p';
    }
  }

  /** A map that commutes with conjugation keeps a list conjugate-closed. */
  lemma MapClosed(f: Complex -> Complex, s: seq<Complex>)
    requires ConjClosed(s)
    requires forall i :: 0 <= i < |s| ==> f(Conj(s[i])) == Conj(f(s[i]))
    ensures ConjClosed(MapAll(f, s))
  {
    ConjClosedPermutes(s);
    MapPermuted(f, ConjAll(s), s);
    assert MapAll(f, ConjAll(s)) == ConjAll(MapAll(f, s));
    PermutesConjClosed(MapAll(f, s));
  }

  // ----- the bilinear transform

  lemma BilinearConj(p: Complex)
    requires p != TWO
    ensures Conj(p) != TWO && Bilinear(Conj(p)) == Conj(Bilinear(p))
  {
    assert p == Conj(Conj(p));
    var a, b := Add(TWO, p), Sub(TWO, p);
    assert Add(TWO, Conj(p)) == Conj(a) && Sub(TWO, Conj(p)) == Conj(b);
    assert NormSq(Conj(b)) == NormSq(b);
    NormSqPositive(b);
    DivConj(a, b);
  }

  lemma QuotientBelowOne(x: real, d: real, n: real)
    requires x * d == n && d > 0.0
    ensures x < 1.0 <==> n < d
  {
  }

  lemma NormGap(p: Complex)
    ensures NormSq(Add(TWO, p)) - NormSq(Sub(TWO, p)) == 8.0 * p.re
  {
  }

  /** The left half-plane, and nothing else, goes strictly inside the unit circle. */
  lemma BilinearInside(p: Complex)
    requires p != TWO
    ensures NormSq(Bilinear(p)) < 1.0 <==> p.re < 0.0
  {
    var a, b := Add(TWO, p), Sub(TWO, p);
    NormSqPositive(b);
    DivMul(a, b);
    NormSqMul(Bilinear(p), b);
    QuotientBelowOne(NormSq(Bilinear(p)), NormSq(b), NormSq(a));
    NormGap(p);
  }

  // ----- the pole table

  /** Row of the table where the poles of a given order start, and how many entries that order uses. */
  function FirstPole(order: nat): nat {
    order * order / 4
  }

  function PoleEntries(order: nat): nat {
    (order + 1) / 2
  }

  /** The table serves an order: its entries exist, lie in the left half-plane, and the unpaired one is real. */
  ghost predicate Serves(table: seq<Complex>, order: nat) {
    && LeftHalfPlane(table)
    && FirstPole(order) + PoleEntries(order) <= |table|
    && (order % 2 == 1 ==> table[FirstPole(order)].im == 0.0)
  }

  /** The rows of the orders follow each other without gap or overlap. */
  lemma RowsFollow(order: nat)
    ensures FirstPole(1) == 0 && FirstPole(order) + PoleEntries(order) == FirstPole(order + 1)
  {
    var k := order / 2;
    assert order == 2 * k || order == 2 * k + 1;
    assert order * order == 4 * (k * k) || order * order == 4 * (k * k + k) + 1;
    assert (order + 1) * (order + 1) == 4 * (k * k + k) + 1 || (order + 1) * (order + 1) == 4 * ((k + 1) * (k + 1));
  }

  lemma TableLeft(i: nat)
    requires i < |BESSEL_POLES|
    ensures BESSEL_POLES[i].re < 0.0
  {
  }

  lemma TableOddReal(order: nat)
    requires order == 1 || order == 3 || order == 5 || order == 7 || order == 9
    ensures FirstPole(order) < |BESSEL_POLES| && BESSEL_POLES[FirstPole(order)].im == 0.0
  {
  }

  lemma TableRange(order: nat)
    ensures FirstPole(order) + PoleEntries(order) <= 30 <==> order <= 10
  {
    if order >= 11 {
      assert order * order >= 11 * order;
    } else {
      assert order * order <= 10 * order;
    }
  }

  /** The built-in table serves exactly the orders up to 10; beyond that the source reads past its end. */
  lemma BesselTableServes(order: nat)
    requires order >= 1
    ensures Serves(BESSEL_POLES, order) <==> order <= 10
  {
    TableRange(order);
    if order <= 10 {
      forall i | 0 <= i < |BESSEL_POLES| ensures BESSEL_POLES[i].re < 0.0 {
        TableLeft(i);
      }
      if order % 2 == 1 {
        TableOddReal(order);
      }
    }
  }

  /** Each of the listed entries followed by its conjugate, after the unpaired real one if there is one. */
  function WithConjugates(table: seq<Complex>, first: nat, odd: nat, pairs: nat): (r: seq<Complex>)
    requires first + odd + pairs <= |table| && odd <= 1
    ensures |r| == odd + 2 * pairs
  {
    if pairs == 0 then table[first..first + odd]
    else
      var a := table[first + odd + pairs - 1];
      WithConjugates(table, first, odd, pairs - 1) + [a] + [Conj(a)]
  }

  lemma {:induction false} WithConjugatesClosed(table: seq<Complex>, first: nat, odd: nat, pairs: nat)
    requires first + odd + pairs <= |table| && odd <= 1
    requires odd == 1 ==> table[first].im == 0.0
    ensures ConjClosed(WithConjugates(table, first, odd, pairs))
  {
    if pairs == 0 {
      RealListClosed(WithConjugates(table, first, odd, 0));
    } else {
      WithConjugatesClosed(table, first, odd, pairs - 1);
      AddPairClosed(WithConjugates(table, first, odd, pairs - 1), table[first + odd + pairs - 1]);
    }
  }

  lemma {:induction false} WithConjugatesLeft(table: seq<Complex>, first: nat, odd: nat, pairs: nat)
    requires first + odd + pairs <= |table| && odd <= 1 && LeftHalfPlane(table)
    ensures LeftHalfPlane(WithConjugates(table, first, odd, pairs))
  {
    if pairs == 0 {
    } else {
      WithConjugatesLeft(table, first, odd, pairs - 1);
    }
  }

  // ----- from polynomials to a recurrence

  function RealCoeff(r: real): Complex {
    Complex(r, 0.0)
  }

  /** Recurrence coefficients, newest sample first, read as a polynomial in z. */
  function AsPolynomial(c: seq<real>): (r: seq<Complex>)
    ensures |r| == |c|
  {
    seq(|c|, i requires 0 <= i < |c| => RealCoeff(c[|c| - 1 - i]))
  }

  /** The recurrence x[0..], y[0..] has exactly the transfer function with these zeros and poles. */
  ghost predicate Realises(xcoeffs: seq<real>, ycoeffs: seq<real>, zeros: seq<Complex>, poles: seq<Complex>) {
    && (forall z :: Eval(AsPolynomial(xcoeffs), z) == RootProduct(zeros, z))
    && (forall z :: Eval(AsPolynomial(ycoeffs), z) == Neg(RootProduct(poles, z)))
    && |ycoeffs| > 0 && ycoeffs[0] == -1.0
    && Feeds(ycoeffs, poles)
  }

  /** The feedback coefficients are those of the expanded poles, highest power first and negated. */
  ghost predicate Feeds(ycoeffs: seq<real>, poles: seq<Complex>) {
    && |ycoeffs| == |poles| + 1
    && forall k :: 0 <= k < |ycoeffs| ==> ycoeffs[k] == -Expansion(poles)[|poles| - k].re
  }

  // ----- the Butterworth circle

  /** Angles add when the points are multiplied. */
  predicate Adds(polar: int -> Complex, a: int, b: int) {
    Mul(polar(a), polar(b)) == polar(a + b)
  }

  /**
   The laws of cosine and sine that are used of polar(k), the point on the unit circle at the angle k pi / (2 n): its
   modulus, the sum of two angles, the right angle, and where it is left of the imaginary axis.
   */
  ghost predicate OnUnitCircle(polar: int -> Complex, n: nat) {
    && n >= 1 && polar(0) == ONE && polar(n) == I
    && (forall a, b :: Adds(polar, a, b))
    && (forall k :: NormSq(polar(k)) == 1.0)
    && (forall k :: 0 <= k < 4 * n ==> (polar(k).re < 0.0 <==> n < k < 3 * n))
  }

  /** The angle of the i-th candidate, as a multiple of pi / (2 n): i pi / n for odd n, half a step later for even n. */
  function HalfSteps(n: nat, i: nat): nat {
    if n % 2 == 1 then 2 * i else 2 * i + 1
  }

  /** The candidates for the prototype poles of a Butterworth filter. */
  function Circle(polar: int -> Complex, n: nat): (r: seq<Complex>)
    ensures |r| == 2 * n
  {
    seq(2 * n, i requires 0 <= i < 2 * n => polar(HalfSteps(n, i)))
  }

  lemma {:induction false} ReversePermutes<T>(s: seq<T>, r: seq<T>)
    requires |r| == |s| && forall i :: 0 <= i < |s| ==> r[i] == s[|s| - 1 - i]
    ensures multiset(r) == multiset(s)
  {
    if s == [] {
    } else {
      var n := |s| - 1;
      ReversePermutes(s[1..], r[..n]);
      assert s == [s[0]] + s[1..] && r == r[..n] + [s[0]];
    }
  }

  function Quarter(q: int): Complex {
    if q == 0 then Complex(1.0, 0.0) else if q == 1 then Complex(0.0, 1.0)
    else if q == 2 then Complex(-1.0, 0.0) else Complex(0.0, -1.0)
  }

  /** The points on the axes. */
  function AxisPoint(k: int): Complex {
    Quarter(k % 4)
  }

  lemma SumModFour(a: int, b: int)
    ensures var x, y := a % 4, b % 4; (a + b) % 4 == if x + y < 4 then x + y else x + y - 4
  {
  }

  /** Multiplying by the points on the axes. */
  lemma QuarterTurns(z: Complex)
    ensures Mul(Complex(1.0, 0.0), z) == z && Mul(Complex(0.0, 1.0), z) == Complex(-z.im, z.re)
    ensures Mul(Complex(-1.0, 0.0), z) == Complex(-z.re, -z.im) && Mul(Complex(0.0, -1.0), z) == Complex(z.im, -z.re)
  {
  }

  lemma QuartersAdd(x: int, y: int)
    requires 0 <= x < 4 && 0 <= y < 4
    ensures Mul(Quarter(x), Quarter(y)) == Quarter(if x + y < 4 then x + y else x + y - 4)
  {
    hide Mul;
    QuarterTurns(Quarter(y));
  }

  lemma AxisAdds(a: int, b: int)
    ensures Adds(AxisPoint, a, b)
  {
    hide Mul, Quarter;
    SumModFour(a, b);
    QuartersAdd(a % 4, b % 4);
  }

  lemma AxisNorm(k: int)
    ensures NormSq(AxisPoint(k)) == 1.0
  {
  }

  /** The laws can be met: for order 1 by the points on the axes. */
  lemma LawsConsistent()
    ensures OnUnitCircle(AxisPoint, 1)
  {
    hide Adds, NormSq;
    forall a, b ensures Adds(AxisPoint, a, b) {
      AxisAdds(a, b);
    }
    forall k ensures NormSq(AxisPoint(k)) == 1.0 {
      AxisNorm(k);
    }
  }

  lemma AddAngles(polar: int -> Complex, n: nat, a: int, b: int)
    requires OnUnitCircle(polar, n)
    ensures Mul(polar(a), polar(b)) == polar(a + b)
  {
    hide Mul, NormSq;
    assert Adds(polar, a, b);
  }

  lemma Anchors(polar: int -> Complex, n: nat, k: int)
    requires OnUnitCircle(polar, n)
    ensures n >= 1 && polar(0) == ONE && polar(n) == I && NormSq(polar(k)) == 1.0
    ensures 0 <= k < 4 * n ==> (polar(k).re < 0.0 <==> n < k < 3 * n)
  {
    hide Mul, NormSq, Adds;
  }

  /** A half turn is -1, and after a whole one everything repeats. */
  lemma Turns(polar: int -> Complex, n: nat, k: int)
    requires OnUnitCircle(polar, n)
    ensures polar(2 * n) == MINUS_ONE && polar(4 * n) == ONE && polar(k + 4 * n) == polar(k)
    ensures polar(k + 2 * n) == Neg(polar(k))
  {
    hide OnUnitCircle, Mul, Adds;
    QuarterTurns(polar(k));
    QuarterTurns(MINUS_ONE);
    QuarterTurns(I);
    MulCommutes(polar(k), MINUS_ONE);
    MulCommutes(polar(k), ONE);
    Anchors(polar, n, k);
    AddAngles(polar, n, n, n);
    AddAngles(polar, n, 2 * n, 2 * n);
    AddAngles(polar, n, k, 4 * n);
    AddAngles(polar, n, k, 2 * n);
  }

  lemma InverseIsConj(a: Complex, b: Complex)
    requires NormSq(a) == 1.0 && Mul(a, b) == ONE
    ensures b == Conj(a)
  {
    assert Mul(Conj(a), a) == ONE;
    MulAssoc(Conj(a), a, b);
  }

  lemma PolarConj(polar: int -> Complex, n: nat, k: int)
    requires OnUnitCircle(polar, n)
    ensures Conj(polar(k)) == polar(-k) == polar(4 * n - k)
  {
    hide OnUnitCircle, Mul, NormSq;
    Anchors(polar, n, k);
    AddAngles(polar, n, k, -k);
    InverseIsConj(polar(k), polar(-k));
    Turns(polar, n, -k);
  }

  /** Which of the candidates are left of the imaginary axis. */
  lemma LeftCandidate(polar: int -> Complex, n: nat, i: nat)
    requires OnUnitCircle(polar, n) && i < 2 * n
    ensures Circle(polar, n)[i].re < 0.0 <==> (n + 1) / 2 <= i < (n + 1) / 2 + n
    ensures NormSq(Circle(polar, n)[i]) == 1.0
  {
    hide NormSq, OnUnitCircle;
    Anchors(polar, n, HalfSteps(n, i));
  }

  lemma CircleConj(polar: int -> Complex, n: nat, i: nat)
    requires OnUnitCircle(polar, n) && i < 2 * n
    ensures Conj(Circle(polar, n)[i])
         == if n % 2 == 0 then Circle(polar, n)[2 * n - 1 - i]
            else if i == 0 then Circle(polar, n)[0] else Circle(polar, n)[2 * n - i]
  {
    hide OnUnitCircle;
    var k := HalfSteps(n, i);
    PolarConj(polar, n, k);
    PolarConj(polar, n, 0);
    if n % 2 == 0 {
      assert 4 * n - k == HalfSteps(n, 2 * n - 1 - i);
    } else if i > 0 {
      assert 4 * n - k == HalfSteps(n, 2 * n - i);
    }
  }

  /** A list that conjugation reverses is closed under it. */
  lemma MirroredClosed(s: seq<Complex>)
    requires forall i :: 0 <= i < |s| ==> Conj(s[i]) == s[|s| - 1 - i]
    ensures ConjClosed(s)
  {
    ReversePermutes(s, ConjAll(s));
    PermutesConjClosed(s);
  }

  /** So is one whose first element is real and whose others conjugation reverses. */
  lemma HeadMirroredClosed(s: seq<Complex>)
    requires s != [] && Conj(s[0]) == s[0]
    requires forall i :: 1 <= i < |s| ==> Conj(s[i]) == s[|s| - i]
    ensures ConjClosed(s)
  {
    var r := ConjAll(s);
    ReversePermutes(s[1..], r[1..]);
    assert s == [s[0]] + s[1..] && r == [s[0]] + r[1..];
    PermutesConjClosed(s);
  }

  /** The candidates are closed under conjugation. */
  lemma CircleClosed(polar: int -> Complex, n: nat)
    requires OnUnitCircle(polar, n)
    ensures ConjClosed(Circle(polar, n))
  {
    hide OnUnitCircle, Circle, ConjClosed;
    var s := Circle(polar, n);
    if n % 2 == 0 {
      forall i | 0 <= i < 2 * n ensures Conj(s[i]) == s[2 * n - 1 - i] {
        CircleConj(polar, n, i);
      }
      MirroredClosed(s);
    } else {
      CircleConj(polar, n, 0);
      forall i | 1 <= i < 2 * n ensures Conj(s[i]) == s[2 * n - i] {
        CircleConj(polar, n, i);
      }
      HeadMirroredClosed(s);
    }
  }

  /** Entries that all lie on one side of the imaginary axis are all admitted, or none is. */
  lemma {:induction false} AdmittedOneSided(s: seq<Complex>, left: bool)
    requires forall k :: 0 <= k < |s| ==> (s[k].re < 0.0 <==> left)
    ensures Admitted(s) == if left then s else []
  {
    if s == [] {
    } else {
      var n := |s| - 1;
      AdmittedOneSided(s[..n], left);
      assert s == s[..n] + [s[n]];
    }
  }

  lemma AdmittedSnoc(s: seq<Complex>, x: Complex)
    ensures Admitted(s + [x]) == Admitted(s) + if x.re < 0.0 then [x] else []
  {
    hide LeftHalfPlane;
    assert (s + [x])[..|s|] == s;
  }

  lemma {:induction false} AdmittedAppend(s: seq<Complex>, t: seq<Complex>)
    ensures Admitted(s + t) == Admitted(s) + Admitted(t)
  {
    hide Admitted, LeftHalfPlane;
    if t == [] {
      AdmittedOneSided(t, false);
      assert s + t == s;
    } else {
      var n := |t| - 1;
      var t', x := t[..n], t[n];
      AdmittedAppend(s, t');
      assert t == t' + [x] && s + t == (s + t') + [x];
      AdmittedSnoc(s + t', x);
      AdmittedSnoc(t', x);
    }
  }

  /** Of a list whose only entries in the left half-plane are those from lo to hi, those are admitted. */
  lemma AdmittedRange(s: seq<Complex>, lo: nat, hi: nat)
    requires lo <= hi <= |s|
    requires forall k :: 0 <= k < |s| ==> (s[k].re < 0.0 <==> lo <= k < hi)
    ensures Admitted(s) == s[lo..hi]
  {
    hide Admitted, LeftHalfPlane;
    var a, b, c := s[..lo], s[lo..hi], s[hi..];
    AdmittedOneSided(a, false);
    AdmittedOneSided(b, true);
    AdmittedOneSided(c, false);
    assert s == a + b + c;
    AdmittedAppend(a + b, c);
    AdmittedAppend(a, b);
  }

  /** Exactly n of the candidates are poles, one after the other, all of modulus one. */
  lemma ButterworthPoles(polar: int -> Complex, n: nat)
    requires OnUnitCircle(polar, n)
    ensures var s, first := Circle(polar, n), (n + 1) / 2;
            && first + n <= |s| && Admitted(s) == s[first..first + n] && ConjClosed(Admitted(s))
            && forall z :: z in Admitted(s) ==> NormSq(z) == 1.0
  {
    hide OnUnitCircle, Circle, ConjClosed, NormSq;
    var s, first := Circle(polar, n), (n + 1) / 2;
    forall i | 0 <= i < 2 * n ensures (s[i].re < 0.0 <==> first <= i < first + n) && NormSq(s[i]) == 1.0 {
      LeftCandidate(polar, n, i);
    }
    AdmittedRange(s, first, first + n);
    CircleClosed(polar, n);
    AdmittedClosed(s);
  }

  /** The poles of the analogue prototype: a row of the table with conjugates, or the left half of the circle. */
  ghost predicate IsPrototype(table: seq<Complex>, design: Design, order: nat, polar: int -> Complex, s: seq<Complex>) {
    var first := (order + 1) / 2;
    match design
    case Bessel =>
      && FirstPole(order) + PoleEntries(order) <= |table|
      && s == WithConjugates(table, FirstPole(order), order % 2, order / 2)
    case Butterworth => order >= 1 && s == Circle(polar, order)[first..first + order]
  }

  /**
   The digital poles belong to the prototype scaled by the corner w: z (2 - w s) == 2 + w s for each pole s of the
   prototype.
   */
  ghost predicate Placed(poles: seq<Complex>, proto: seq<Complex>, w: real) {
    && |poles| == |proto|
    && forall i :: 0 <= i < |poles| ==> PolePlaced(poles[i], Scale(proto[i], w))
  }

  predicate PolePlaced(z: Complex, p: Complex) {
    Mul(z, Sub(TWO, p)) == Add(TWO, p)
  }

  /** What the bilinear transform leaves: as many zeros at -1 as there are poles, all of them inside the unit circle. */
  ghost predicate Digital(zeros: seq<Complex>, poles: seq<Complex>) {
    && |zeros| == |poles| && (forall i :: 0 <= i < |zeros| ==> zeros[i] == MINUS_ONE)
    && ConjClosed(poles) && InsideUnitCircle(poles)
  }

  /** The quotient of the two products at z = 1, which is real and positive. */
  ghost predicate IsGain(gain: Complex, zeros: seq<Complex>, poles: seq<Complex>) {
    && gain.im == 0.0 && gain.re > 0.0
    && Mul(gain, RootProduct(poles, ONE)) == RootProduct(zeros, ONE)
    && RootProduct(poles, ONE).re > 0.0
    && gain.re == Pow2(|poles|) / RootProduct(poles, ONE).re
  }

  function SumReal(c: seq<real>): real {
    if c == [] then 0.0 else c[0] + SumReal(c[1..])
  }

  lemma {:induction false} EvalAtOne(c: seq<real>)
    ensures Eval(AsPolynomial(c), ONE) == RealCoeff(SumReal(c))
    decreases |c|
  {
    if c == [] {
    } else {
      var r := AsPolynomial(c);
      EvalAtOneSnoc(AsPolynomial(c[1..]), RealCoeff(c[0]));
      assert r == AsPolynomial(c[1..]) + [RealCoeff(c[0])];
      EvalAtOne(c[1..]);
    }
  }

  lemma {:induction false} EvalAtOneSnoc(p: seq<Complex>, x: Complex)
    ensures Eval(p + [x], ONE) == Add(Eval(p, ONE), x)
  {
    if p == [] {
      assert (p + [x])[1..] == [];
    } else {
      EvalAtOneSnoc(p[1..], x);
      assert (p + [x])[1..] == p[1..] + [x];
    }
  }

  lemma {:induction false} EvalNegate(p: seq<Complex>, q: seq<Complex>, z: Complex)
    requires |p| == |q|
    requires forall i :: 0 <= i < |p| ==> q[i] == Neg(p[i])
    ensures Eval(q, z) == Neg(Eval(p, z))
  {
    if p == [] {
    } else {
      EvalNegate(p[1..], q[1..], z);
      NegHorner(Eval(p[1..], z), z, p[0]);
    }
  }

  function Pow2(n: nat): (r: real)
    ensures r > 0.0
  {
    if n == 0 then 1.0 else 2.0 * Pow2(n - 1)
  }

  lemma {:induction false} ZerosAtOne(zeros: seq<Complex>)
    requires forall i :: 0 <= i < |zeros| ==> zeros[i] == MINUS_ONE
    ensures RootProduct(zeros, ONE) == RealCoeff(Pow2(|zeros|))
  {
    if zeros == [] {
    } else {
      ZerosAtOne(zeros[..|zeros| - 1]);
    }
  }

  // ----- the factory

  class ZFilterFactory {
    const design: Design
    const order: nat
    const besselPoles: seq<Complex>
    const rawAlpha: real
    var warpedAlpha: real
    var spoles: seq<Complex>
    var szeros: seq<Complex>
    var zpoles: seq<Complex>
    var zzeros: seq<Complex>
    var xcoeffs: seq<real>
    var ycoeffs: seq<real>
    var dcGain: Complex

    /** The design is finished: stable, realised by the coefficients, and with a real positive DC gain. */
    ghost predicate Built()
      reads this
    {
      && Digital(zzeros, zpoles)
      && |xcoeffs| == |ycoeffs| == |zpoles| + 1
      && Realises(xcoeffs, ycoeffs, zzeros, zpoles)
      && IsGain(dcGain, zzeros, zpoles)
    }

    /** The source takes hypot() of the two parts; with a real positive gain that is the real part. */
    function Gain(): (g: real)
      requires Built()
      reads this
      ensures g > 0.0 && g * g == NormSq(dcGain)
    {
      dcGain.re
    }

    method SetPole(z: Complex)
      modifies this`spoles
      ensures spoles == old(spoles) + (if z.re < 0.0 then [z] else [])
    {
      if z.re < 0.0 {
        spoles := spoles + [z];
      }
    }

    /** Prototype poles; polar(k) stands for the point on the unit circle at the angle k pi / (2 order). */
    method SPlane(polar: int -> Complex)
      requires design.Bessel? ==> Serves(besselPoles, order)
      requires design.Butterworth? ==> OnUnitCircle(polar, order)
      modifies this`spoles
      ensures |spoles| == order && ConjClosed(spoles) && LeftHalfPlane(spoles)
      ensures IsPrototype(besselPoles, design, order, polar, spoles)
    {
      spoles := [];
      if design.Bessel? {
        SPlaneBessel();
      } else {
        SPlaneButterworth(polar);
      }
    }

    method SPlaneBessel()
      requires Serves(besselPoles, order) && spoles == []
      modifies this`spoles
      ensures ConjClosed(spoles) && LeftHalfPlane(spoles)
      ensures && |spoles| == order && FirstPole(order) + order % 2 + order / 2 <= |besselPoles|
              && spoles == WithConjugates(besselPoles, FirstPole(order), order % 2, order / 2)
    {
      hide FirstPole, ConjClosed;
      var first := FirstPole(order);
      var p := first;
      if order % 2 == 1 {
        SetPole(besselPoles[p]);
        p := p + 1;
      }
      var i := 0;
      while i < order / 2
        invariant 0 <= i <= order / 2
        invariant p == first + order % 2 + i
        invariant spoles == WithConjugates(besselPoles, first, order % 2, i)
      {
        SetPole(besselPoles[p]);
        SetPole(Conj(besselPoles[p]));
        p := p + 1;
        i := i + 1;
      }
      WithConjugatesClosed(besselPoles, first, order % 2, order / 2);
      WithConjugatesLeft(besselPoles, first, order % 2, order / 2);
    }

    method SPlaneButterworth(polar: int -> Complex)
      requires OnUnitCircle(polar, order) && spoles == []
      modifies this`spoles
      ensures ConjClosed(spoles) && LeftHalfPlane(spoles) && |spoles| == order
      ensures var first := (order + 1) / 2;
              first + order <= 2 * order && spoles == Circle(polar, order)[first..first + order]
    {
      hide OnUnitCircle;
      ghost var all := Circle(polar, order);
      var i := 0;
      while i < 2 * order
        invariant 0 <= i <= 2 * order
        invariant spoles == Admitted(all[..i])
      {
        assert all[..i + 1][..i] == all[..i];
        assert all[..i + 1][i] == all[i] == polar(HalfSteps(order, i));
        SetPole(polar(if order % 2 == 1 then 2 * i else 2 * i + 1));
        i := i + 1;
      }
      assert all[..i] == all;
      ButterworthPoles(polar, order);
    }

    /** tangent(x) stands for tan(pi x). */
    method Prewarp(tangent: real -> real)
      modifies this`warpedAlpha
      ensures 2.0 * PI * warpedAlpha == 2.0 * tangent(rawAlpha)
    {
      warpedAlpha := tangent(rawAlpha) / PI;
    }

    /** Scales the prototype to the prewarped corner frequency. */
    method Normalize()
      requires 2.0 * PI * warpedAlpha > 0.0 && ConjClosed(spoles) && LeftHalfPlane(spoles)
      modifies this`spoles, this`szeros
      ensures |spoles| == |old(spoles)|
      ensures forall i :: 0 <= i < |spoles| ==> spoles[i] == Scale(old(spoles)[i], 2.0 * PI * warpedAlpha)
      ensures szeros == [] && ConjClosed(spoles) && LeftHalfPlane(spoles)
    {
      var w1 := 2.0 * PI * warpedAlpha;
      ghost var was := spoles;
      var f := (p: Complex) => Scale(p, w1);
      var i := 0;
      while i < |spoles|
        invariant 0 <= i <= |spoles| == |was|
        invariant forall k :: 0 <= k < i ==> spoles[k] == Scale(was[k], w1)
        invariant forall k :: i <= k < |was| ==> spoles[k] == was[k]
      {
        spoles := spoles[i := Scale(spoles[i], w1)];
        i := i + 1;
      }
      szeros := [];
      assert spoles == MapAll(f, was);
      MapClosed(f, was);
      forall k | 0 <= k < |spoles| ensures spoles[k].re < 0.0 {
        assert was[k].re < 0.0;
      }
    }

    /** Bilinear transform of the poles, and as many zeros at -1 as there are poles. */
    method ZPlane()
      requires ConjClosed(spoles) && LeftHalfPlane(spoles) && szeros == []
      modifies this`zpoles, this`zzeros
      ensures |zpoles| == |spoles| == |zzeros|
      ensures forall i :: 0 <= i < |spoles| ==> spoles[i] != TWO && zpoles[i] == Bilinear(spoles[i])
      ensures Digital(zzeros, zpoles)
    {
      zpoles, zzeros := [], [];
      var i := 0;
      while i < |spoles|
        invariant 0 <= i <= |spoles| && |zpoles| == i && zzeros == []
        invariant forall k :: 0 <= k < i ==> spoles[k] != TWO && zpoles[k] == Bilinear(spoles[k])
      {
        assert spoles[i].re < 0.0;
        zpoles := zpoles + [Bilinear(spoles[i])];
        i := i + 1;
      }
      ghost var poles := zpoles;
      while |zzeros| < |zpoles|
        invariant |zzeros| <= |zpoles| && zpoles == poles
        invariant forall k :: 0 <= k < |zzeros| ==> zzeros[k] == MINUS_ONE
      {
        zzeros := zzeros + [MINUS_ONE];
      }
      BilinearListClosed(spoles, zpoles);
    }

    /** From the prototype to the digital poles and zeros, at the prewarped corner. */
    method Digitize(tangent: real -> real)
      requires ConjClosed(spoles) && LeftHalfPlane(spoles) && tangent(rawAlpha) > 0.0
      modifies this`spoles, this`szeros, this`zpoles, this`zzeros, this`warpedAlpha
      ensures |zpoles| == |old(spoles)| && Digital(zzeros, zpoles)
      ensures Placed(zpoles, old(spoles), 2.0 * tangent(rawAlpha))
    {
      hide Digital, ConjClosed, Bilinear;
      Prewarp(tangent);
      Normalize();
      ZPlane();
      BilinearPlaces(spoles, zpoles);
    }

    /** The real parts of the coefficients, newest sample first, over the leading one of the denominator. */
    method TakeCoefficients(top: array<Complex>, bot: array<Complex>)
      requires top.Length > 0 && bot.Length > 0 && bot[bot.Length - 1] == ONE
      modifies this`xcoeffs, this`ycoeffs
      ensures |xcoeffs| == top.Length && |ycoeffs| == bot.Length
      ensures forall k :: 0 <= k < |xcoeffs| ==> xcoeffs[k] == top[..][top.Length - 1 - k].re
      ensures forall k :: 0 <= k < |ycoeffs| ==> ycoeffs[k] == -bot[..][bot.Length - 1 - k].re
    {
      xcoeffs, ycoeffs := [], [];
      var i := top.Length - 1;
      while i >= 0
        invariant -1 <= i < top.Length && |xcoeffs| == top.Length - 1 - i && ycoeffs == []
        invariant forall k :: 0 <= k < |xcoeffs| ==> xcoeffs[k] == top[top.Length - 1 - k].re
      {
        xcoeffs := xcoeffs + [top[i].re / bot[bot.Length - 1].re];
        i := i - 1;
      }
      i := bot.Length - 1;
      ghost var xs := xcoeffs;
      while i >= 0
        invariant -1 <= i < bot.Length && |ycoeffs| == bot.Length - 1 - i && xcoeffs == xs
        invariant forall k :: 0 <= k < |ycoeffs| ==> ycoeffs[k] == -bot[bot.Length - 1 - k].re
      {
        ycoeffs := ycoeffs + [-(bot[i].re / bot[bot.Length - 1].re)];
        i := i - 1;
      }
    }

    /** Both polynomials, of the zeros and of the poles. */
    method ExpandBoth() returns (top: array<Complex>, bot: array<Complex>, ok: bool)
      requires Digital(zzeros, zpoles)
      ensures top[..] == Expansion(zzeros) && bot[..] == Expansion(zpoles) && ok
    {
      RealListClosed(zzeros);
      var okTop, okBot;
      top, okTop := Expand(zzeros);
      bot, okBot := Expand(zpoles);
      ok := okTop && okBot;
    }

    /** The gain at z = 1 of the expanded polynomials. */
    method TakeGain(top: array<Complex>, bot: array<Complex>)
      requires Digital(zzeros, zpoles)
      requires top[..] == Expansion(zzeros) && bot[..] == Expansion(zpoles)
      modifies this`dcGain
      ensures IsGain(dcGain, zzeros, zpoles)
    {
      GainAtOne(zzeros, zpoles);
      ExpansionIsProduct(zzeros, ONE);
      ExpansionIsProduct(zpoles, ONE);
      var topAtOne := EvalPoly(top, ONE);
      var botAtOne := EvalPoly(bot, ONE);
      dcGain := Div(topAtOne, botAtOne);
    }

    /** The recurrence of the expanded polynomials represents their roots. */
    method TakeRecurrence(top: array<Complex>, bot: array<Complex>)
      requires Digital(zzeros, zpoles)
      requires top[..] == Expansion(zzeros) && bot[..] == Expansion(zpoles)
      modifies this`xcoeffs, this`ycoeffs
      ensures |xcoeffs| == |ycoeffs| == |zpoles| + 1
      ensures Realises(xcoeffs, ycoeffs, zzeros, zpoles)
    {
      RealListClosed(zzeros);
      ExpansionFacts(zpoles);
      assert bot[bot.Length - 1] == bot[..][|zpoles|] == ONE;
      TakeCoefficients(top, bot);
      CoefficientsRealise(xcoeffs, ycoeffs, zzeros, zpoles);
    }

    /** Expands poles and zeros, and takes the recurrence coefficients and the DC gain from the polynomials. */
    method ExpandPoly() returns (ok: bool)
      requires Digital(zzeros, zpoles)
      modifies this`xcoeffs, this`ycoeffs, this`dcGain
      ensures ok && Built()
    {
      var top, bot;
      top, bot, ok := ExpandBoth();
      TakeGain(top, bot);
      TakeRecurrence(top, bot);
    }

    constructor (design: Design, order: nat, period: real)
      requires period >= 2.0
      ensures this.design == design && this.order == order && rawAlpha == 1.0 / period && besselPoles == BESSEL_POLES
      ensures spoles == [] && szeros == []
    {
      this.design, this.order, this.besselPoles := design, order, BESSEL_POLES;
      rawAlpha, warpedAlpha := 1.0 / period, 0.0;
      spoles, szeros := [], [];
    }

    /**
     The stages in the order in which the source's constructor runs them; None is its exception. tangent(x) stands for
     tan(pi x), polar(k) for the point that the source gets from polar() at k pi / (2 order); proto are the poles of
     the analogue prototype.
     */
    static method Make(design: Design, order: int, period: real, polar: int -> Complex, tangent: real -> real)
      returns (r: Option<ZFilterFactory>, ghost proto: seq<Complex>)
      requires design.Bessel? ==> order <= 10
      requires design.Butterworth? && order >= 1 ==> OnUnitCircle(polar, order)
      requires period >= 2.0 ==> tangent(1.0 / period) > 0.0
      ensures r.None? <==> order <= 0 || period < 2.0
      ensures r.Some? ==> r.value.Built() && r.value.design == design && |r.value.zpoles| == order
      ensures r.Some? ==> IsPrototype(BESSEL_POLES, design, order, polar, proto) && LeftHalfPlane(proto)
      ensures r.Some? ==> Placed(r.value.zpoles, proto, 2.0 * tangent(1.0 / period))
    {
      hide Digital, ConjClosed, Realises, IsGain, IsPrototype, Placed, Serves, OnUnitCircle, BESSEL_POLES;
      proto := [];
      if order <= 0 || period < 2.0 {
        return None, proto;
      }
      var f := new ZFilterFactory(design, order, period);
      BesselTableServes(order);
      f.SPlane(polar);
      proto := f.spoles;
      f.Digitize(tangent);
      var ok := f.ExpandPoly();
      r := Some(f);
    }
  }

  lemma BilinearPlaces(s: seq<Complex>, z: seq<Complex>)
    requires |z| == |s| && forall i :: 0 <= i < |s| ==> s[i] != TWO && z[i] == Bilinear(s[i])
    ensures forall i :: 0 <= i < |s| ==> PolePlaced(z[i], s[i])
  {
    forall i | 0 <= i < |s| ensures PolePlaced(z[i], s[i]) {
      DivMul(Add(TWO, s[i]), Sub(TWO, s[i]));
    }
  }

  lemma BilinearListClosed(s: seq<Complex>, z: seq<Complex>)
    requires ConjClosed(s) && LeftHalfPlane(s) && |z| == |s|
    requires forall i :: 0 <= i < |s| ==> s[i] != TWO && z[i] == Bilinear(s[i])
    ensures ConjClosed(z) && InsideUnitCircle(z)
  {
    var f := p => if p == TWO then ZERO else Bilinear(p);
    forall i | 0 <= i < |s| ensures f(Conj(s[i])) == Conj(f(s[i])) {
      BilinearConj(s[i]);
    }
    assert z == MapAll(f, s);
    MapClosed(f, s);
    forall x | x in multiset(z) ensures NormSq(x) < 1.0 {
      var i :| 0 <= i < |z| && z[i] == x;
      BilinearInside(s[i]);
    }
  }

  lemma RealQuotient(a: Complex, b: Complex)
    requires a.im == 0.0 && b.im == 0.0 && a.re > 0.0 && b.re > 0.0
    ensures b != ZERO && Div(a, b).im == 0.0 && Div(a, b).re == a.re / b.re && Div(a, b).re > 0.0
    ensures Mul(Div(a, b), b) == a
  {
    DivMul(a, b);
    var d := Div(a, b);
    assert d.im == 0.0 by {
      assert a.im * b.re - a.re * b.im == 0.0;
    }
    assert d.re * b.re == a.re;
  }

  /** With as many zeros at -1 as poles inside the unit circle, the DC gain is real and positive. */
  lemma GainAtOne(zeros: seq<Complex>, poles: seq<Complex>)
    requires Digital(zeros, poles)
    ensures RootProduct(poles, ONE) != ZERO
    ensures IsGain(Div(RootProduct(zeros, ONE), RootProduct(poles, ONE)), zeros, poles)
  {
    ProductAtOnePositive(poles);
    ZerosAtOne(zeros);
    RealQuotient(RootProduct(zeros, ONE), RootProduct(poles, ONE));
  }

  lemma CoefficientsRealise(xc: seq<real>, yc: seq<real>, zeros: seq<Complex>, poles: seq<Complex>)
    requires ConjClosed(zeros) && ConjClosed(poles)
    requires |xc| == |zeros| + 1 && |yc| == |poles| + 1
    requires forall k :: 0 <= k < |xc| ==> xc[k] == Expansion(zeros)[|zeros| - k].re
    requires forall k :: 0 <= k < |yc| ==> yc[k] == -Expansion(poles)[|poles| - k].re
    ensures Realises(xc, yc, zeros, poles)
  {
    var t, b := Expansion(zeros), Expansion(poles);
    var n, m := |zeros|, |poles|;
    forall i | 0 <= i <= n ensures AsPolynomial(xc)[i] == t[i] {
      ExpansionReal(zeros, i);
      assert AsPolynomial(xc)[i] == RealCoeff(xc[n - i]) == RealCoeff(t[n - (n - i)].re);
    }
    assert AsPolynomial(xc) == t;
    forall i | 0 <= i <= m ensures AsPolynomial(yc)[i] == Neg(b[i]) {
      ExpansionReal(poles, i);
      assert AsPolynomial(yc)[i] == RealCoeff(yc[m - i]) == RealCoeff(-b[m - (m - i)].re);
    }
    forall z ensures Eval(t, z) == RootProduct(zeros, z)
             ensures Eval(AsPolynomial(yc), z) == Neg(RootProduct(poles, z)) {
      ExpansionIsProduct(zeros, z);
      ExpansionIsProduct(poles, z);
      EvalNegate(b, AsPolynomial(yc), z);
    }
    ExpansionIsProduct(poles, ZERO);
  }
}
