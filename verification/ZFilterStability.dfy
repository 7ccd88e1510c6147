/**
 What stability of the design means for the filter that runs: it forgets how its registers started, and the guiding
 loop takes a constant displacement away up to the minimum move, from any registers.
 */
module ZFilterStability {
  import opened Reals
  import opened ComplexNumbers
  import opened Polynomials
  import opened ZFilterDesign
  import opened ZFilter

  type Signal = nat -> Complex

  // ----- polynomials as operators on signals

  /** The sum of c[k] times the signal k samples after t. */
  function Applied(c: seq<Complex>, g: Signal, t: nat): Complex {
    if c == [] then ZERO else Add(Mul(c[0], g(t)), Applied(c[1..], g, t + 1))
  }

  /** The signal one sample later less w times the signal. */
  function Reduced(w: Complex, g: Signal): Signal {
    (t: nat) => Sub(g(t + 1), Mul(w, g(t)))
  }

  lemma ReducedStep(w: Complex, c: Complex, carry: Complex, x: Complex, y: Complex, rest: Complex)
    ensures Add(Mul(Add(Mul(Neg(w), c), carry), x), Add(Mul(c, y), rest))
         == Add(Mul(carry, x), Add(Mul(c, Sub(y, Mul(w, x))), rest))
  {
    MulAdd(Mul(Neg(w), c), carry, x);
    NegMoves(w, c, x, y);
  }

  lemma NegMoves(w: Complex, c: Complex, x: Complex, y: Complex)
    ensures Add(Mul(Mul(Neg(w), c), x), Mul(c, y)) == Mul(c, Sub(y, Mul(w, x)))
  {
    var n := Mul(Neg(w), x);
    MulAssoc(Neg(w), c, x);
    MulSwap(Neg(w), c, x);
    assert Sub(y, Mul(w, x)) == Add(n, y);
    MulAdd(n, y, c);
  }

  /** Multiplying a root into a polynomial is applying the polynomial to the signal reduced by the root. */
  lemma {:induction false} AppliedMulIn(c: seq<Complex>, w: Complex, carry: Complex, g: Signal, t: nat)
    requires c != [] && c[|c| - 1] == ZERO
    ensures Applied(MulIn(c, w, carry), g, t) == Add(Mul(carry, g(t)), Applied(c, Reduced(w, g), t))
  {
    var r := MulIn(c, w, carry);
    if |c| == 1 {
      assert r[1..] == [] && c[1..] == [];
    } else {
      assert r[1..] == MulIn(c[1..], w, c[0]);
      AppliedMulIn(c[1..], w, c[0], g, t + 1);
      ReducedStep(w, c[0], carry, g(t), g(t + 1), Applied(c[1..], Reduced(w, g), t + 1));
    }
  }

  lemma {:induction false} AppliedZeros(n: nat, g: Signal, t: nat)
    ensures Applied(seq(n, _ => ZERO), g, t) == ZERO
  {
    if n == 0 {
    } else {
      assert seq(n, _ => ZERO)[1..] == seq(n - 1, _ => ZERO);
      AppliedZeros(n - 1, g, t + 1);
    }
  }

  ghost predicate Annihilates(c: seq<Complex>, g: Signal) {
    forall t: nat :: Applied(c, g, t) == ZERO
  }

  /** The size of the signal falls below every bound for good. */
  ghost predicate Vanishes(g: Signal) {
    forall eps: real :: eps > 0.0 ==> EventuallyBelow(g, eps)
  }

  ghost predicate EventuallyBelow(g: Signal, eps: real) {
    exists n: nat :: BelowFrom(g, eps, n)
  }

  ghost predicate BelowFrom(g: Signal, eps: real, n: nat) {
    forall t: nat :: t >= n ==> NormSq(g(t)) < eps
  }

  /** A signal that a polynomial with all roots inside the unit circle annihilates vanishes. */
  lemma {:induction false} StableVanishes(roots: seq<Complex>, n: nat, g: Signal)
    requires |roots| <= n && (forall i :: 0 <= i < |roots| ==> NormSq(roots[i]) < 1.0)
    requires Annihilates(Expanded(roots, n), g)
    ensures Vanishes(g)
    decreases |roots|
  {
    if roots == [] {
      forall t: nat ensures g(t) == ZERO {
        assert Applied(One(n), g, t) == ZERO;
        assert One(n)[1..] == seq(n, _ => ZERO);
        AppliedZeros(n, g, t + 1);
      }
      forall eps: real | eps > 0.0 ensures EventuallyBelow(g, eps) {
        assert BelowFrom(g, eps, 0);
      }
    } else {
      var k := |roots| - 1;
      var w, c := roots[k], Expanded(roots[..k], n);
      ExpandedIsProduct(roots[..k], n, ZERO);
      forall t: nat ensures Applied(c, Reduced(w, g), t) == ZERO {
        AppliedMulIn(c, w, ZERO, g, t);
        assert Applied(Expanded(roots, n), g, t) == ZERO;
      }
      StableVanishes(roots[..k], n, Reduced(w, g));
      Contracts(w, g);
    }
  }

  // ----- one root

  /** Powers of a number below one. */
  function Power(r: real, k: nat): real {
    if k == 0 then 1.0 else Product(r, Power(r, k - 1))
  }

  lemma {:induction false} PowerBound(r: real, k: nat)
    requires 0.0 <= r < 1.0
    ensures 0.0 <= Power(r, k) <= 1.0
    ensures Product(Power(r, k), 1.0 + Product(1.0 - r, k as real)) <= 1.0
  {
    if k == 0 {
      Unit(1.0);
      Unit(1.0 - r);
    } else {
      PowerBound(r, k - 1);
      PowerStep(r, Power(r, k - 1), (k - 1) as real);
      assert k as real == (k - 1) as real + 1.0;
    }
  }

  lemma PowerStep(r: real, p: real, k: real)
    requires 0.0 <= r < 1.0 && 0.0 <= p <= 1.0 && k >= 0.0
    requires Product(p, 1.0 + Product(1.0 - r, k)) <= 1.0
    ensures 0.0 <= Product(r, p) <= 1.0
    ensures Product(Product(r, p), 1.0 + Product(1.0 - r, k + 1.0)) <= 1.0
  {
    var q, s, a := Product(r, p), 1.0 - r, 1.0 + Product(1.0 - r, k);
    Monotone(r, 0.0, p);
    Monotone(r, p, 1.0);
    Unit(r);
    Distributes(s, k, 1.0);
    Unit(s);
    Distributes(q, a, s);
    Associates(r, p, a);
    Monotone(r, Product(p, a), 1.0);
    Monotone(s, q, 1.0);
    Commutes(s, q);
  }

  lemma NormSqProduct(a: Complex, b: Complex)
    ensures NormSq(Mul(a, b)) == Product(NormSq(a), NormSq(b))
  {
    NormSqMul(a, b);
  }

  lemma NormSqNonneg(a: Complex)
    ensures NormSq(a) >= 0.0
  {
    SquareSign(a.re);
    SquareSign(a.im);
  }

  /** A sum of two numbers, with the first weighted little and the second as much as that takes. */
  lemma WeightedSum(x: real, y: real, h: real)
    requires h > 0.0
    ensures Square(x + y) <= Product(1.0 + h, Square(x)) + Product(1.0 + 1.0 / h, Square(y))
  {
    var k := 1.0 / h;
    var z := Product(k, y);
    Quotient(1.0, h);
    SquareSign(x - z);
    calc {
      Product(1.0 + h, Square(x)) + Product(1.0 + k, Square(y)) - Square(x + y);
      { WeightedExpansion(x, y, h, k); }
      Product(h, Square(x - z));
    >= { Monotone(h, 0.0, Square(x - z)); Unit(h); }
      0.0;
    }
  }

  lemma WeightedExpansion(x: real, y: real, h: real, k: real)
    requires Product(k, h) == 1.0
    ensures Product(1.0 + h, Square(x)) + Product(1.0 + k, Square(y)) - Square(x + y)
         == Product(h, Square(x - Product(k, y)))
  {
    var hk := h * k;
    assert hk == 1.0;
    calc {
      h * ((x - k * y) * (x - k * y));
      h * (x * x) - 2.0 * (hk * (x * y)) + hk * (k * (y * y));
      h * (x * x) - 2.0 * (x * y) + k * (y * y);
    }
  }

  lemma WeightedSums(x: real, y: real, u: real, v: real, h: real)
    requires h > 0.0
    ensures Square(x + u) + Square(y + v)
            <= Product(1.0 + h, Square(x) + Square(y)) + Product(1.0 + 1.0 / h, Square(u) + Square(v))
  {
    WeightedSum(x, u, h);
    WeightedSum(y, v, h);
    Distributes(1.0 + h, Square(x), Square(y));
    Distributes(1.0 + 1.0 / h, Square(u), Square(v));
  }

  lemma NormSqSquares(a: Complex)
    ensures NormSq(a) == Square(a.re) + Square(a.im)
  {
  }

  lemma NormSqSum(a: Complex, b: Complex, h: real)
    requires h > 0.0
    ensures NormSq(Add(a, b)) <= Product(1.0 + h, NormSq(a)) + Product(1.0 + 1.0 / h, NormSq(b))
  {
    WeightedSums(a.re, a.im, b.re, b.im, h);
    NormSqSquares(a);
    NormSqSquares(b);
    NormSqSquares(Add(a, b));
  }

  function Rho(r: real): real {
    (1.0 + r) / 2.0
  }

  function Most(r: real): real
    requires r < 1.0
  {
    1.0 + 2.0 / (1.0 - r)
  }

  lemma InverseHalf(s: real)
    requires s > 0.0
    ensures 1.0 / (s / 2.0) == 2.0 / s
  {
  }

  lemma ShrunkWeight(r: real, h: real)
    requires 0.0 <= r < 1.0 && h == (1.0 - r) / 2.0
    ensures Product(1.0 + h, r) <= Rho(r)
  {
    Commutes(1.0 + h, r);
    Distributes(r, 1.0, h);
    Unit(r);
    Monotone(h, r, 1.0);
    Commutes(h, r);
    Unit(h);
  }

  lemma SampleBound(r: real, x: real, d: real, next: real)
    requires 0.0 <= r < 1.0 && x >= 0.0
    requires var h := (1.0 - r) / 2.0; next <= Product(1.0 + h, Product(r, x)) + Product(1.0 + 1.0 / h, d)
    ensures next <= Product(Rho(r), x) + Product(Most(r), d)
  {
    var h := (1.0 - r) / 2.0;
    InverseHalf(1.0 - r);
    Associates(1.0 + h, r, x);
    ShrunkWeight(r, h);
    Monotone(x, Product(1.0 + h, r), Rho(r));
    Commutes(x, Product(1.0 + h, r));
    Commutes(x, Rho(r));
  }

  lemma SubAdd(x: Complex, a: Complex)
    ensures x == Add(a, Sub(x, a))
  {
  }

  lemma NormSqSplit(y: Complex, a: Complex, h: real)
    requires h > 0.0
    ensures NormSq(y) <= Product(1.0 + h, NormSq(a)) + Product(1.0 + 1.0 / h, NormSq(Sub(y, a)))
  {
    SubAdd(y, a);
    NormSqSum(a, Sub(y, a), h);
  }

  /** The size of a sample in terms of the size of the one before and of what the root does not explain. */
  lemma OneSample(w: Complex, x: Complex, y: Complex)
    requires NormSq(w) < 1.0
    ensures NormSq(y) <= Product(Rho(NormSq(w)), NormSq(x)) + Product(Most(NormSq(w)), NormSq(Sub(y, Mul(w, x))))
  {
    var h, a := (1.0 - NormSq(w)) / 2.0, Mul(w, x);
    NormSqNonneg(w);
    NormSqNonneg(x);
    NormSqSplit(y, a, h);
    NormSqProduct(w, x);
    SampleBound(NormSq(w), NormSq(x), NormSq(Sub(y, a)), NormSq(y));
  }

  /** From the start on the sequence is pulled towards half. */
  ghost predicate Falling(f: nat -> real, rho: real, half: real, start: nat) {
    forall t: nat :: t >= start ==> f(t + 1) <= Product(rho, f(t)) + Product(1.0 - rho, half)
  }

  /** From the start on, what is above half shrinks by rho with every sample. */
  lemma {:induction false} Excess(f: nat -> real, rho: real, half: real, start: nat, k: nat)
    requires rho >= 0.0 && Falling(f, rho, half, start)
    ensures f(start + k) <= half + Product(Power(rho, k), f(start)) || half < 0.0
  {
    if k == 0 {
      Unit(f(start));
    } else if half >= 0.0 {
      Excess(f, rho, half, start, k - 1);
      var t := start + (k - 1);
      assert f(t + 1) <= Product(rho, f(t)) + Product(1.0 - rho, half);
      ExcessStep(rho, half, f(t), Power(rho, k - 1), f(start));
    }
  }

  lemma ExcessStep(rho: real, half: real, x: real, p: real, first: real)
    requires rho >= 0.0 && x <= half + Product(p, first)
    ensures Product(rho, x) + Product(1.0 - rho, half) <= half + Product(Product(rho, p), first)
  {
    Monotone(rho, x, half + Product(p, first));
    Distributes(rho, half, Product(p, first));
    Associates(rho, p, first);
    Commutes(1.0 - rho, half);
    Commutes(rho, half);
    Complement(half, rho);
  }

  lemma Complement(half: real, rho: real)
    ensures Product(half, rho) + Product(half, 1.0 - rho) == half
  {
  }

  /** A sequence of sizes that keeps being pulled below half of a bound falls below the bound. */
  lemma FallsBelow(f: nat -> real, rho: real, half: real, start: nat) returns (n: nat)
    requires 0.0 <= rho < 1.0 && half > 0.0 && f(start) >= 0.0 && Falling(f, rho, half, start)
    ensures forall t: nat :: t >= n ==> f(t) < half + half
  {
    var k := Enough(1.0 - rho, f(start), half);
    n := start + k;
    forall t: nat | t >= n ensures f(t) < half + half {
      Excess(f, rho, half, start, t - start);
      Faded(rho, f(start), half, k, t - start);
    }
  }

  /** The bound on the reduced signal that pulls the signal below half. */
  function Small(r: real, half: real): real
    requires 0.0 <= r < 1.0
  {
    Product(1.0 - Rho(r), half) / Most(r)
  }

  lemma SmallServes(r: real, half: real)
    requires 0.0 <= r < 1.0 && half > 0.0
    ensures Small(r, half) > 0.0 && Most(r) > 0.0 && 0.0 <= Rho(r) < 1.0
    ensures Product(Most(r), Small(r, half)) == Product(1.0 - Rho(r), half)
  {
    QuotientPositive(2.0, 1.0 - r);
    Positive(1.0 - Rho(r), half);
    QuotientPositive(Product(1.0 - Rho(r), half), Most(r));
    Quotient(Product(1.0 - Rho(r), half), Most(r));
    Commutes(Most(r), Small(r, half));
  }

  lemma QuotientPositive(a: real, b: real)
    requires a > 0.0 && b > 0.0
    ensures a / b > 0.0
  {
  }

  function Sizes(g: Signal): nat -> real {
    (t: nat) => NormSq(g(t))
  }

  /** Every value is bounded by the one before and by a driving sequence. */
  ghost predicate Driven(f: nat -> real, d: nat -> real, rho: real, most: real) {
    forall t: nat :: f(t + 1) <= Product(rho, f(t)) + Product(most, d(t))
  }

  lemma SampleDriven(w: Complex, g: Signal, t: nat)
    requires NormSq(w) < 1.0
    ensures Sizes(g)(t + 1)
            <= Product(Rho(NormSq(w)), Sizes(g)(t)) + Product(Most(NormSq(w)), Sizes(Reduced(w, g))(t))
  {
    hide NormSq, Mul, Sub, Rho, Most, Product;
    OneSample(w, g(t), g(t + 1));
  }

  lemma SizesDriven(w: Complex, g: Signal)
    requires NormSq(w) < 1.0
    ensures Driven(Sizes(g), Sizes(Reduced(w, g)), Rho(NormSq(w)), Most(NormSq(w)))
  {
    hide NormSq, Rho, Most, Product, Sizes, Reduced;
    forall t: nat
      ensures Sizes(g)(t + 1)
              <= Product(Rho(NormSq(w)), Sizes(g)(t)) + Product(Most(NormSq(w)), Sizes(Reduced(w, g))(t))
    {
      SampleDriven(w, g, t);
    }
  }

  /** A small drive pulls the sequence towards half. */
  lemma DrivenFalls(f: nat -> real, d: nat -> real, rho: real, most: real, half: real, small: real, start: nat)
    requires Driven(f, d, rho, most) && most >= 0.0 && Product(most, small) == Product(1.0 - rho, half)
    requires forall t: nat :: t >= start ==> d(t) < small
    ensures Falling(f, rho, half, start)
  {
    forall t: nat | t >= start ensures f(t + 1) <= Product(rho, f(t)) + Product(1.0 - rho, half) {
      assert d(t) < small;
      Monotone(most, d(t), small);
      assert f(t + 1) <= Product(rho, f(t)) + Product(most, d(t));
    }
  }

  /** A signal whose reduction by a root inside the unit circle vanishes, vanishes. */
  lemma Contracts(w: Complex, g: Signal)
    requires NormSq(w) < 1.0 && Vanishes(Reduced(w, g))
    ensures Vanishes(g)
  {
    NormSqNonneg(w);
    forall eps: real | eps > 0.0 ensures EventuallyBelow(g, eps) {
      ContractsBelow(w, NormSq(w), g, eps / 2.0);
    }
  }

  lemma FallsFrom(w: Complex, r: real, g: Signal, half: real, small: real) returns (start: nat)
    requires r == NormSq(w) && 0.0 <= r < 1.0 && Vanishes(Reduced(w, g)) && half > 0.0
    requires small > 0.0 && Most(r) >= 0.0 && Product(Most(r), small) == Product(1.0 - Rho(r), half)
    ensures Falling(Sizes(g), Rho(r), half, start)
  {
    assert EventuallyBelow(Reduced(w, g), small);
    start :| BelowFrom(Reduced(w, g), small, start);
    SizesDriven(w, g);
    forall t: nat | t >= start ensures Sizes(Reduced(w, g))(t) < small {
      assert NormSq(Reduced(w, g)(t)) < small;
    }
    DrivenFalls(Sizes(g), Sizes(Reduced(w, g)), Rho(r), Most(r), half, small, start);
  }

  lemma FallenBelow(g: Signal, rho: real, half: real, start: nat)
    requires 0.0 <= rho < 1.0 && half > 0.0 && Falling(Sizes(g), rho, half, start)
    ensures EventuallyBelow(g, half + half)
  {
    NormSqNonneg(g(start));
    var n := FallsBelow(Sizes(g), rho, half, start);
    SizesBelow(g, half + half, n);
  }

  lemma ContractsBelow(w: Complex, r: real, g: Signal, half: real)
    requires r == NormSq(w) && 0.0 <= r < 1.0 && Vanishes(Reduced(w, g)) && half > 0.0
    ensures EventuallyBelow(g, half + half)
  {
    SmallServes(r, half);
    var start := FallsFrom(w, r, g, half, Small(r, half));
    FallenBelow(g, Rho(r), half, start);
  }

  lemma SizesBelow(g: Signal, eps: real, n: nat)
    requires forall t: nat :: t >= n ==> Sizes(g)(t) < eps
    ensures EventuallyBelow(g, eps)
  {
    forall t: nat | t >= n ensures NormSq(g(t)) < eps {
      assert Sizes(g)(t) < eps;
    }
    assert BelowFrom(g, eps, n);
  }

  /** A count that times s exceeds first over half. */
  lemma Enough(s: real, first: real, half: real) returns (k: nat)
    requires s > 0.0 && first >= 0.0 && half > 0.0
    ensures first < Product(half, 1.0 + Product(s, k as real))
  {
    var q := first / half / s;
    Quotient(first, half);
    Quotient(first / half, s);
    assert q >= 0.0 by {
      QuotientNonneg(first, half);
      QuotientNonneg(first / half, s);
    }
    k := q.Floor + 1;
    Monotone(s, q, k as real);
    Commutes(s, q);
    StrictlyMonotone(half, first / half, 1.0 + Product(s, k as real));
    Commutes(half, first / half);
  }

  lemma QuotientNonneg(a: real, b: real)
    requires a >= 0.0 && b > 0.0
    ensures a / b >= 0.0
  {
  }

  lemma Faded(rho: real, first: real, half: real, k: nat, j: nat)
    requires 0.0 <= rho < 1.0 && first >= 0.0 && half > 0.0 && j >= k
    requires first < Product(half, 1.0 + Product(1.0 - rho, k as real))
    ensures Product(Power(rho, j), first) < half
  {
    var p, s := Power(rho, j), 1.0 - rho;
    var a := 1.0 + Product(s, j as real);
    PowerBound(rho, j);
    Monotone(s, k as real, j as real);
    Monotone(half, 1.0 + Product(s, k as real), a);
    if p == 0.0 {
      Unit(first);
    } else {
      StrictlyMonotone(p, first, Product(half, a));
      Associates(p, half, a);
      Commutes(p, half);
      Associates(half, p, a);
      Monotone(half, Product(p, a), 1.0);
      Unit(half);
    }
  }

  // ----- real signals

  ghost predicate SmallFrom(d: nat -> real, eps: real, n: nat) {
    forall t: nat :: t >= n ==> Abs(d(t)) < eps
  }

  ghost predicate EventuallySmall(d: nat -> real, eps: real) {
    exists n: nat :: SmallFrom(d, eps, n)
  }

  ghost predicate DiesOut(d: nat -> real) {
    forall eps: real :: eps > 0.0 ==> EventuallySmall(d, eps)
  }

  /** A real signal from some sample on, as a complex one. */
  function Embedded(d: nat -> real, off: nat): Signal {
    (t: nat) => Complex(d(t + off), 0.0)
  }

  lemma RealSize(x: real, eps: real)
    requires eps > 0.0 && NormSq(Complex(x, 0.0)) < Square(eps)
    ensures Abs(x) < eps
  {
    Unit(0.0);
    SquareNegated(x);
    SquareMonotone(eps, Abs(x));
  }

  lemma EmbeddedDiesOut(d: nat -> real, off: nat)
    requires Vanishes(Embedded(d, off))
    ensures DiesOut(d)
  {
    forall eps: real | eps > 0.0 ensures EventuallySmall(d, eps) {
      Positive(eps, eps);
      assert EventuallyBelow(Embedded(d, off), Square(eps));
      var n: nat :| BelowFrom(Embedded(d, off), Square(eps), n);
      forall t: nat | t >= n + off ensures Abs(d(t)) < eps {
        assert NormSq(Embedded(d, off)(t - off)) < Square(eps);
        RealSize(d(t), eps);
      }
      assert SmallFrom(d, eps, n + off);
    }
  }

  // ----- the recurrence as an operator

  /** The sum of c[i] times the signal i samples before t, for lo <= i < hi. */
  function Weighed(d: nat -> real, c: seq<real>, t: int, lo: nat, hi: nat): real
    requires hi <= |c| && hi <= t + 1
  {
    if hi <= lo then 0.0 else Weighed(d, c, t, lo, hi - 1) + d(t - (hi - 1)) * c[hi - 1]
  }

  lemma {:induction false} DotDifference(a: seq<real>, b: seq<real>, c: seq<real>, d: nat -> real, t: int,
                                         lo: nat, hi: nat)
    requires hi <= |a| && hi <= |b| && hi <= |c| && hi <= t + 1
    requires forall i :: lo <= i < hi ==> a[i] - b[i] == d(t - i)
    ensures Dot(a, c, lo, hi) - Dot(b, c, lo, hi) == Weighed(d, c, t, lo, hi)
  {
    if hi <= lo {
    } else {
      DotDifference(a, b, c, d, t, lo, hi - 1);
      TermDifference(a[hi - 1], b[hi - 1], c[hi - 1], d(t - (hi - 1)));
    }
  }

  lemma TermDifference(a: real, b: real, c: real, d: real)
    requires a - b == d
    ensures a * c - b * c == d * c
  {
  }

  lemma {:induction false} WeighedSplit(d: nat -> real, c: seq<real>, t: int, hi: nat)
    requires 1 <= hi <= |c| && hi <= t + 1
    ensures Weighed(d, c, t, 0, hi) == d(t) * c[0] + Weighed(d, c, t, 1, hi)
  {
    if hi == 1 {
    } else {
      WeighedSplit(d, c, t, hi - 1);
    }
  }

  /** The negated coefficients of the recurrence, lowest power first. */
  ghost predicate Reversed(b: seq<Complex>, c: seq<real>) {
    |b| == |c| && forall k :: 0 <= k < |b| ==> b[k] == Complex(-c[|c| - 1 - k], 0.0)
  }

  lemma {:induction false} AppliedIsWeighed(b: seq<Complex>, c: seq<real>, d: nat -> real, off: nat, t: nat, k: nat)
    requires Reversed(b, c) && k <= |b|
    ensures Applied(b[k..], Embedded(d, off), t + k)
         == Complex(-Weighed(d, c, t + off + |c| - 1, 0, |c| - k), 0.0)
    decreases |b| - k
  {
    if k == |b| {
    } else {
      AppliedIsWeighed(b, c, d, off, t, k + 1);
      assert b[k..][1..] == b[k + 1..];
      assert t + off + |c| - 1 - (|c| - 1 - k) == t + off + k;
      RealTerm(c[|c| - 1 - k], d(t + off + k), Weighed(d, c, t + off + |c| - 1, 0, |c| - k - 1));
    }
  }

  lemma RealTerm(c: real, x: real, rest: real)
    ensures Add(Mul(Complex(-c, 0.0), Complex(x, 0.0)), Complex(-rest, 0.0)) == Complex(-(rest + x * c), 0.0)
  {
    assert (-c) * x == -(x * c);
    assert (-c) * 0.0 == 0.0 && 0.0 * x == 0.0;
  }

  /** The bare recurrence holds at the |c| samples from t on. */
  ghost predicate Recurs(d: nat -> real, c: seq<real>, t: nat) {
    c != [] ==> Weighed(d, c, t + |c| - 1, 0, |c|) == 0.0
  }

  lemma ExpansionReversed(c: seq<real>, poles: seq<Complex>)
    requires ConjClosed(poles) && Feeds(c, poles)
    ensures Reversed(Expansion(poles), c)
  {
    var b := Expansion(poles);
    forall k | 0 <= k < |b| ensures b[k] == Complex(-c[|c| - 1 - k], 0.0) {
      ExpansionReal(poles, k);
      assert c[|c| - 1 - k] == -b[|poles| - (|c| - 1 - k)].re;
    }
  }

  lemma RecurrenceAnnihilates(b: seq<Complex>, c: seq<real>, d: nat -> real, off: nat)
    requires Reversed(b, c) && c != [] && forall t: nat :: t >= off ==> Recurs(d, c, t)
    ensures Annihilates(b, Embedded(d, off))
  {
    hide Weighed, Applied;
    forall t: nat ensures Applied(b, Embedded(d, off), t) == ZERO {
      AppliedIsWeighed(b, c, d, off, t, 0);
      assert b[0..] == b;
      assert Recurs(d, c, t + off);
    }
  }

  /** From some sample on the signal satisfies the recurrence of a stable design: then it dies out. */
  lemma RecurrenceDiesOut(c: seq<real>, poles: seq<Complex>, d: nat -> real, off: nat)
    requires ConjClosed(poles) && InsideUnitCircle(poles) && Feeds(c, poles)
    requires forall t: nat :: t >= off ==> Recurs(d, c, t)
    ensures DiesOut(d)
  {
    ExpansionReversed(c, poles);
    RecurrenceAnnihilates(Expansion(poles), c, d, off);
    forall i | 0 <= i < |poles| ensures NormSq(poles[i]) < 1.0 {
      assert poles[i] in multiset(poles);
    }
    StableVanishes(poles, |poles|, Embedded(d, off));
    EmbeddedDiesOut(d, off);
  }

  // ----- the running filter

  /** The state after t inputs that show the filter the uncorrected waveform v. */
  function Trail(f: Filter, s: State, v: nat -> real, t: nat): (r: State)
    requires Ready(f) && Fits(f, s)
    ensures Fits(f, r)
  {
    if t == 0 then s
    else
      var before := Trail(f, s, v, t - 1);
      Step(f, before, v(t - 1) - before.sumCorr).0
  }

  function Output(f: Filter, s: State, v: nat -> real, t: nat): real
    requires Ready(f) && Fits(f, s)
  {
    Trail(f, s, v, t).yv[0]
  }

  /** An input as the filter takes it. */
  function Fed(f: Filter, v: nat -> real, t: nat): real
    requires Ready(f)
  {
    v(t) / f.gain
  }

  lemma TrailStep(f: Filter, s: State, v: nat -> real, t: nat)
    requires Ready(f) && Fits(f, s)
    ensures var before, after := Trail(f, s, v, t), Trail(f, s, v, t + 1);
            && after.xv == Shift(before.xv, Fed(f, v, t))
            && after.yv[0] == NextOutput(f, after.xv, Shift(before.yv, 0.0))
            && after.yv == Shift(before.yv, after.yv[0])
  {
  }

  /** The first t cells of a register hold the last t values of a signal, the newest first; cell 0 holds value(t). */
  ghost predicate Keeps(r: seq<real>, value: nat -> real, t: nat) {
    forall i :: 0 <= i < |r| && i < t ==> r[i] == value(t - i)
  }

  lemma ShiftKeeps(r: seq<real>, value: nat -> real, t: nat)
    requires |r| > 0 && Keeps(r, value, t)
    ensures Keeps(Shift(r, value(t + 1)), value, t + 1)
  {
    var q := Shift(r, value(t + 1));
    forall i | 0 <= i < |q| && i < t + 1 ensures q[i] == value(t + 1 - i) {
      if i > 0 {
        assert q[i] == r[i - 1];
      }
    }
  }

  function Inputs(f: Filter, v: nat -> real): nat -> real
    requires Ready(f)
  {
    (t: nat) => if t == 0 then 0.0 else Fed(f, v, t - 1)
  }

  function Outputs(f: Filter, s: State, v: nat -> real): nat -> real
    requires Ready(f) && Fits(f, s)
  {
    (t: nat) => Output(f, s, v, t)
  }

  /** The registers move on by one cell. */
  ghost predicate Shifted(before: State, after: State, x: real, y: real) {
    && |before.xv| > 0 && |before.yv| > 0
    && after.xv == Shift(before.xv, x) && after.yv == Shift(before.yv, y)
  }

  /** Registers that move on with every sample hold the last samples. */
  lemma {:induction false} RegistersKeep(trail: nat -> State, x: nat -> real, y: nat -> real, t: nat)
    requires forall k: nat :: Shifted(trail(k), trail(k + 1), x(k + 1), y(k + 1))
    ensures Keeps(trail(t).xv, x, t) && Keeps(trail(t).yv, y, t)
  {
    if t == 0 {
    } else {
      RegistersKeep(trail, x, y, t - 1);
      assert Shifted(trail(t - 1), trail(t - 1 + 1), x(t - 1 + 1), y(t - 1 + 1));
      ShiftKeeps(trail(t - 1).xv, x, t - 1);
      ShiftKeeps(trail(t - 1).yv, y, t - 1);
    }
  }

  lemma TrailShifted(f: Filter, s: State, v: nat -> real, t: nat)
    requires Ready(f) && Fits(f, s)
    ensures Shifted(Trail(f, s, v, t), Trail(f, s, v, t + 1), Inputs(f, v)(t + 1), Outputs(f, s, v)(t + 1))
  {
    TrailStep(f, s, v, t);
  }

  /** What the registers hold once t inputs have passed through them. */
  lemma TrailRegisters(f: Filter, s: State, v: nat -> real, t: nat)
    requires Ready(f) && Fits(f, s)
    ensures Keeps(Trail(f, s, v, t).xv, Inputs(f, v), t)
    ensures Keeps(Trail(f, s, v, t).yv, Outputs(f, s, v), t)
  {
    hide Step, Trail;
    var trail := (k: nat) => Trail(f, s, v, k);
    forall k: nat
      ensures Shifted(trail(k), trail(k + 1), Inputs(f, v)(k + 1), Outputs(f, s, v)(k + 1))
    {
      TrailShifted(f, s, v, k);
    }
    RegistersKeep(trail, Inputs(f, v), Outputs(f, s, v), t);
  }

  lemma KeepsSame(a: seq<real>, b: seq<real>, value: nat -> real, t: nat)
    requires |a| == |b| <= t && Keeps(a, value, t) && Keeps(b, value, t)
    ensures a == b
  {
  }

  function Apart(f: Filter, s1: State, s2: State, v: nat -> real): nat -> real
    requires Ready(f) && Fits(f, s1) && Fits(f, s2)
  {
    (t: nat) => Output(f, s1, v, t) - Output(f, s2, v, t)
  }

  lemma ShiftedApart(a: seq<real>, b: seq<real>, y: nat -> real, z: nat -> real, d: nat -> real, t: nat)
    requires |a| == |b| > 0 && |a| <= t + 1 && Keeps(a, y, t) && Keeps(b, z, t)
    requires forall k: nat :: d(k) == y(k) - z(k)
    ensures forall i :: 1 <= i < |a| ==> Shift(a, 0.0)[i] - Shift(b, 0.0)[i] == d(t + 1 - i)
  {
    forall i | 1 <= i < |a| ensures Shift(a, 0.0)[i] - Shift(b, 0.0)[i] == d(t + 1 - i) {
      assert Shift(a, 0.0)[i] == a[i - 1] && Shift(b, 0.0)[i] == b[i - 1];
      assert a[i - 1] == y(t - (i - 1)) && b[i - 1] == z(t - (i - 1));
    }
  }

  lemma OutputsApart(f: Filter, xv: seq<real>, a: seq<real>, b: seq<real>, d: nat -> real, t: int)
    requires |xv| == |f.xcoeff| && |a| == |b| == |f.ycoeff| && 1 <= |a| <= t + 1 && f.ycoeff[0] == -1.0
    requires forall i :: 1 <= i < |a| ==> a[i] - b[i] == d(t - i)
    requires d(t) == NextOutput(f, xv, a) - NextOutput(f, xv, b)
    ensures Weighed(d, f.ycoeff, t, 0, |f.ycoeff|) == 0.0
  {
    DotDifference(a, b, f.ycoeff, d, t, 1, |f.ycoeff|);
    WeighedSplit(d, f.ycoeff, t, |f.ycoeff|);
  }

  /** The step of one run, seen from its states before and after. */
  ghost predicate Stepped(f: Filter, before: State, after: State, y: nat -> real, t: nat) {
    && Fits(f, before) && Fits(f, after) && |f.xcoeff| > 0 && |f.ycoeff| > 0
    && Keeps(before.yv, y, t)
    && after.yv[0] == y(t + 1) == NextOutput(f, after.xv, Shift(before.yv, 0.0))
  }

  lemma TrailStepped(f: Filter, s: State, v: nat -> real, t: nat)
    requires Ready(f) && Fits(f, s)
    ensures Stepped(f, Trail(f, s, v, t), Trail(f, s, v, t + 1), Outputs(f, s, v), t)
  {
    TrailRegisters(f, s, v, t);
    TrailStep(f, s, v, t);
  }

  lemma InputsSame(f: Filter, s1: State, s2: State, v: nat -> real, t: nat)
    requires Ready(f) && Fits(f, s1) && Fits(f, s2) && t >= |f.xcoeff|
    ensures Trail(f, s1, v, t).xv == Trail(f, s2, v, t).xv
  {
    TrailRegisters(f, s1, v, t);
    TrailRegisters(f, s2, v, t);
    KeepsSame(Trail(f, s1, v, t).xv, Trail(f, s2, v, t).xv, Inputs(f, v), t);
  }

  lemma ApartStep(f: Filter, b1: State, a1: State, y: nat -> real, b2: State, a2: State, z: nat -> real,
                  d: nat -> real, t: nat)
    requires Stepped(f, b1, a1, y, t) && Stepped(f, b2, a2, z, t) && a1.xv == a2.xv
    requires (forall k: nat :: d(k) == y(k) - z(k)) && t + 1 >= |f.ycoeff| && f.ycoeff[0] == -1.0
    ensures Weighed(d, f.ycoeff, t + 1, 0, |f.ycoeff|) == 0.0
  {
    ShiftedApart(b1.yv, b2.yv, y, z, d, t);
    OutputsApart(f, a1.xv, Shift(b1.yv, 0.0), Shift(b2.yv, 0.0), d, t + 1);
  }

  /** Once the registers are full the difference of two runs on the same waveform satisfies the bare recurrence. */
  lemma ApartRecurs(f: Filter, s1: State, s2: State, v: nat -> real, t: nat)
    requires Ready(f) && Fits(f, s1) && Fits(f, s2)
    requires t + 1 >= |f.xcoeff| && t + 1 >= |f.ycoeff| && f.ycoeff[0] == -1.0
    ensures Weighed(Apart(f, s1, s2, v), f.ycoeff, t + 1, 0, |f.ycoeff|) == 0.0
  {
    TrailStepped(f, s1, v, t);
    TrailStepped(f, s2, v, t);
    InputsSame(f, s1, s2, v, t + 1);
    ApartStep(f, Trail(f, s1, v, t), Trail(f, s1, v, t + 1), Outputs(f, s1, v),
              Trail(f, s2, v, t), Trail(f, s2, v, t + 1), Outputs(f, s2, v), Apart(f, s1, s2, v), t);
  }

  lemma StableMonic(f: Filter, poles: seq<Complex>)
    requires Stable(f, poles)
    ensures f.ycoeff[0] == -1.0
  {
    ExpansionIsProduct(poles, ZERO);
  }

  /** A stable filter forgets its start: on the same waveform the outputs from any two states come together. */
  lemma ForgetsStart(f: Filter, poles: seq<Complex>, s1: State, s2: State, v: nat -> real)
    requires Stable(f, poles) && Fits(f, s1) && Fits(f, s2)
    ensures DiesOut(Apart(f, s1, s2, v))
  {
    hide Step, Trail, Weighed;
    StableMonic(f, poles);
    forall t: nat | t >= 1 ensures Recurs(Apart(f, s1, s2, v), f.ycoeff, t) {
      ApartRecurs(f, s1, s2, v, t + |f.ycoeff| - 2);
    }
    RecurrenceDiesOut(f.ycoeff, poles, Apart(f, s1, s2, v), 1);
  }

  // ----- a constant displacement

  function Held(u: real): nat -> real {
    (t: nat) => u
  }

  /** The state in which the loop follows the constant u. */
  function SettledAt(f: Filter, u: real): State
    requires Ready(f)
  {
    State(seq(|f.xcoeff|, _ => u / f.gain), seq(|f.ycoeff|, _ => u), u)
  }

  lemma {:induction false} StillTrail(f: Filter, q: State, u: real, t: nat)
    requires Ready(f) && Fits(f, q) && Step(f, q, 0.0).0 == q && q.sumCorr == u
    ensures Trail(f, q, Held(u), t) == q
  {
    hide Step;
    if t == 0 {
    } else {
      StillTrail(f, q, u, t - 1);
      assert Held(u)(t - 1) - q.sumCorr == 0.0;
    }
  }

  lemma SettledTrail(f: Filter, u: real, t: nat)
    requires UnityGain(f)
    ensures Trail(f, SettledAt(f, u), Held(u), t) == SettledAt(f, u)
  {
    SettledStep(f, SettledAt(f, u), u);
    StillTrail(f, SettledAt(f, u), u, t);
  }

  /** The part of a constant waveform that has not been corrected after t moves. */
  function Residue(f: Filter, s: State, u: real): nat -> real
    requires Ready(f) && Fits(f, s)
  {
    (t: nat) => u - Trail(f, s, Held(u), t).sumCorr
  }

  lemma CorrectionFollows(f: Filter, s: State, u: real, t: nat)
    requires Ready(f) && Fits(f, s) && t >= 1
    ensures var r := Trail(f, s, Held(u), t); r.sumCorr == r.yv[0] || Abs(r.yv[0] - r.sumCorr) < f.minMove
  {
  }

  lemma ResidueSmall(f: Filter, poles: seq<Complex>, s: State, u: real, margin: real)
    requires Stable(f, poles) && UnityGain(f) && Fits(f, s) && margin > 0.0
    ensures EventuallySmall(Residue(f, s, u), f.minMove + margin)
  {
    hide Step, Trail;
    var q := SettledAt(f, u);
    ForgetsStart(f, poles, s, q, Held(u));
    var d := Apart(f, s, q, Held(u));
    assert EventuallySmall(d, margin);
    var n: nat :| SmallFrom(d, margin, n);
    forall t: nat | t >= n + 1 ensures Abs(Residue(f, s, u)(t)) < f.minMove + margin {
      SettledTrail(f, u, t);
      CorrectionFollows(f, s, u, t);
      assert Abs(d(t)) < margin;
    }
    assert SmallFrom(Residue(f, s, u), f.minMove + margin, n + 1);
  }

  function Constant(u: real, t: nat): (w: seq<real>)
    ensures |w| == t
  {
    seq(t, _ => u)
  }

  lemma SumSnoc(moves: seq<real>, move: real)
    ensures Sum(moves + [move]) == Sum(moves) + move
  {
    assert (moves + [move])[..|moves|] == moves;
  }

  lemma TrailSnoc(f: Filter, s: State, v: nat -> real, t: nat)
    requires Ready(f) && Fits(f, s)
    ensures Trail(f, s, v, t + 1) == Step(f, Trail(f, s, v, t), v(t) - Trail(f, s, v, t).sumCorr).0
  {
    hide Step;
  }

  lemma TrailStart(f: Filter, s: State, v: nat -> real)
    requires Ready(f) && Fits(f, s)
    ensures Trail(f, s, v, 0) == s
  {
  }

  lemma StepCorrects(f: Filter, s: State, input: real)
    requires Ready(f) && Fits(f, s)
    ensures Step(f, s, input).0.sumCorr == s.sumCorr + Step(f, s, input).1
  {
  }

  /** In the loop the filter sees the waveform less the offset of the mount that it does not account for. */
  lemma {:induction false} LoopIsTrail(f: Filter, s: State, p0: real, u: real, t: nat)
    requires Ready(f) && Fits(f, s)
    ensures Loop(f, s, p0, Constant(u, t)).0 == Trail(f, s, Held(u - p0 + s.sumCorr), t)
    ensures Loop(f, s, p0, Constant(u, t)).0.sumCorr == s.sumCorr + Sum(Loop(f, s, p0, Constant(u, t)).1)
  {
    hide Step, Loop, Trail;
    LoopStart(f, s, p0);
    TrailStart(f, s, Held(u - p0 + s.sumCorr));
    if t == 0 {
      assert Constant(u, t) == [];
    } else {
      LoopIsTrail(f, s, p0, u, t - 1);
      var (before, moves) := Loop(f, s, p0, Constant(u, t - 1));
      var input := u - (p0 + Sum(moves));
      LoopSnoc(f, s, p0, Constant(u, t - 1), u);
      assert Constant(u, t - 1) + [u] == Constant(u, t);
      TrailSnoc(f, s, Held(u - p0 + s.sumCorr), t - 1);
      StepCorrects(f, before, input);
      SumSnoc(moves, Step(f, before, input).1);
    }
  }

  /** What is left of a displacement u of the star when the mount stood at p0 and the loop has made t moves. */
  function Error(f: Filter, s: State, p0: real, u: real): nat -> real
    requires Ready(f) && Fits(f, s)
  {
    (t: nat) => u - (p0 + Sum(Loop(f, s, p0, Constant(u, t)).1))
  }

  lemma SameSmall(d: nat -> real, e: nat -> real, eps: real)
    requires EventuallySmall(d, eps) && forall t: nat :: e(t) == d(t)
    ensures EventuallySmall(e, eps)
  {
    var n: nat :| SmallFrom(d, eps, n);
    assert SmallFrom(e, eps, n);
  }

  /**
   From any registers, with the mount anywhere, the loop corrects a constant displacement up to the minimum move: what
   is left of it is in the end less than the minimum move plus any margin.
   */
  lemma DisplacementCorrected(f: Filter, poles: seq<Complex>, s: State, p0: real, u: real, margin: real)
    requires Stable(f, poles) && UnityGain(f) && Fits(f, s) && margin > 0.0
    ensures EventuallySmall(Error(f, s, p0, u), f.minMove + margin)
  {
    hide Step, Trail, Loop;
    var c := u - p0 + s.sumCorr;
    ResidueSmall(f, poles, s, c, margin);
    forall t: nat ensures Error(f, s, p0, u)(t) == Residue(f, s, c)(t) {
      LoopIsTrail(f, s, p0, u, t);
    }
    SameSmall(Residue(f, s, c), Error(f, s, p0, u), f.minMove + margin);
  }
}
