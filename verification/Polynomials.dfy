/** Polynomials with complex coefficients, lowest power first, and their expansion from a list of roots. */
module Polynomials {
  import opened ComplexNumbers

  /** The value of the polynomial at z, by Horner's rule from the top coefficient down. */
  function Eval(c: seq<Complex>, z: Complex): Complex {
    if c == [] then ZERO else Add(Mul(Eval(c[1..], z), z), c[0])
  }

  /** The product of (z - r) over the list: what an expansion of the list is to evaluate to. */
  function RootProduct(roots: seq<Complex>, z: Complex): Complex {
    if roots == [] then ONE
    else Mul(RootProduct(roots[..|roots| - 1], z), Sub(z, roots[|roots| - 1]))
  }

  /** One pass of multiplication by (z - w) over a fixed number of coefficients; carry enters below c[0]. */
  function MulIn(c: seq<Complex>, w: Complex, carry: Complex): (r: seq<Complex>)
    ensures |r| == |c|
  {
    seq(|c|, i requires 0 <= i < |c| => Add(Mul(Neg(w), c[i]), if i == 0 then carry else c[i - 1]))
  }

  function One(n: nat): seq<Complex> {
    [ONE] + seq(n, _ => ZERO)
  }

  /** The coefficients after all roots have been multiplied into the constant 1, held in n + 1 places. */
  function Expanded(roots: seq<Complex>, n: nat): (r: seq<Complex>)
    ensures |r| == n + 1
  {
    if roots == [] then One(n)
    else MulIn(Expanded(roots[..|roots| - 1], n), roots[|roots| - 1], ZERO)
  }

  function Expansion(roots: seq<Complex>): seq<Complex> {
    Expanded(roots, |roots|)
  }

  function ConjAll(s: seq<Complex>): (r: seq<Complex>)
    ensures |r| == |s|
  {
    seq(|s|, i requires 0 <= i < |s| => Conj(s[i]))
  }

  ghost predicate Balanced(s: seq<Complex>, x: Complex) {
    multiset(s)[x] == multiset(s)[Conj(x)]
  }

  /** Every value occurs as often as its conjugate. */
  ghost predicate ConjClosed(s: seq<Complex>) {
    forall x :: Balanced(s, x)
  }

  // ----- expansion is the product of its factors

  lemma {:induction false} EvalMulIn(c: seq<Complex>, w: Complex, carry: Complex, z: Complex)
    requires c != [] && c[|c| - 1] == ZERO
    ensures Eval(MulIn(c, w, carry), z) == Add(Mul(Sub(z, w), Eval(c, z)), carry)
  {
    var r := MulIn(c, w, carry);
    if |c| == 1 {
      assert r[1..] == [] && c[1..] == [];
    } else {
      assert r[1..] == MulIn(c[1..], w, c[0]);
      EvalMulIn(c[1..], w, c[0], z);
      HornerStep(z, w, Eval(c[1..], z), c[0], carry);
    }
  }

  lemma {:induction false} EvalZeros(n: nat, z: Complex)
    ensures Eval(seq(n, _ => ZERO), z) == ZERO
  {
    if n == 0 {
    } else {
      assert seq(n, _ => ZERO)[1..] == seq(n - 1, _ => ZERO);
      EvalZeros(n - 1, z);
    }
  }

  /** After k of n factors the coefficient of z^k is 1, everything above is 0, and the value is the product. */
  lemma {:induction false} ExpandedIsProduct(roots: seq<Complex>, n: nat, z: Complex)
    requires |roots| <= n
    ensures Eval(Expanded(roots, n), z) == RootProduct(roots, z)
    ensures Expanded(roots, n)[|roots|] == ONE
    ensures forall i :: |roots| < i <= n ==> Expanded(roots, n)[i] == ZERO
  {
    if roots == [] {
      assert One(n)[1..] == seq(n, _ => ZERO);
      EvalZeros(n, z);
    } else {
      var k := |roots| - 1;
      var c := Expanded(roots[..k], n);
      ExpandedIsProduct(roots[..k], n, z);
      EvalMulIn(c, roots[k], ZERO, z);
    }
  }

  lemma ExpansionIsProduct(roots: seq<Complex>, z: Complex)
    ensures Eval(Expansion(roots), z) == RootProduct(roots, z)
    ensures Expansion(roots)[|roots|] == ONE
  {
    ExpandedIsProduct(roots, |roots|, z);
  }

  // ----- the order of the roots does not matter

  lemma MulInCommutes(c: seq<Complex>, a: Complex, b: Complex)
    ensures MulIn(MulIn(c, a, ZERO), b, ZERO) == MulIn(MulIn(c, b, ZERO), a, ZERO)
  {
    var l, r := MulIn(MulIn(c, a, ZERO), b, ZERO), MulIn(MulIn(c, b, ZERO), a, ZERO);
    forall i | 0 <= i < |c| ensures l[i] == r[i] {
      TwoFactors(a, b, c[i], if i == 0 then ZERO else c[i - 1], if i <= 1 then ZERO else c[i - 2]);
    }
  }

  lemma ExpandedSnoc(s: seq<Complex>, x: Complex, n: nat)
    ensures Expanded(s + [x], n) == MulIn(Expanded(s, n), x, ZERO)
  {
    assert (s + [x])[..|s|] == s;
  }

  lemma {:induction false} MoveToEnd(s: seq<Complex>, x: Complex, t: seq<Complex>, n: nat)
    ensures Expanded(s + [x] + t, n) == Expanded(s + t + [x], n)
    decreases |t|
  {
    if t == [] {
      assert s + [x] + t == s + t + [x];
    } else {
      var y, t' := t[|t| - 1], t[..|t| - 1];
      MoveToEnd(s, x, t', n);
      assert s + [x] + t == (s + [x] + t') + [y];
      assert s + t == s + t' + [y];
      ExpandedSnoc(s + [x] + t', y, n);
      ExpandedSnoc(s + t', x, n);
      ExpandedSnoc(s + t', y, n);
      ExpandedSnoc(s + t' + [y], x, n);
      MulInCommutes(Expanded(s + t', n), x, y);
    }
  }

  /** Takes one occurrence of x out of the list. */
  lemma SplitAt(q: seq<Complex>, x: Complex) returns (s: seq<Complex>, t: seq<Complex>)
    requires x in q
    ensures q == s + [x] + t
    ensures multiset(q) == multiset(s + t) + multiset{x}
    ensures |s + t| == |q| - 1
  {
    var j :| 0 <= j < |q| && q[j] == x;
    s, t := q[..j], q[j + 1..];
    assert q == s + [x] + t;
  }

  lemma {:induction false} ExpandedPermuted(p: seq<Complex>, q: seq<Complex>, n: nat)
    requires multiset(p) == multiset(q)
    ensures Expanded(p, n) == Expanded(q, n)
    decreases |p|
  {
    if p == [] {
      assert |multiset(q)| == 0;
      assert q == [];
    } else {
      var x, p' := p[|p| - 1], p[..|p| - 1];
      assert p == p' + [x];
      assert x in multiset(q);
      var s, t := SplitAt(q, x);
      assert multiset(p) == multiset(p') + multiset{x};
      assert multiset(p') == multiset(p) - multiset{x} == multiset(s + t);
      ExpandedPermuted(p', s + t, n);
      MoveToEnd(s, x, t, n);
      ExpandedSnoc(p', x, n);
      ExpandedSnoc(s + t, x, n);
    }
  }

  lemma RootProductPermuted(p: seq<Complex>, q: seq<Complex>, z: Complex)
    requires multiset(p) == multiset(q)
    ensures RootProduct(p, z) == RootProduct(q, z)
  {
    assert |multiset(p)| == |p| && |multiset(q)| == |q|;
    ExpandedPermuted(p, q, |p|);
    ExpansionIsProduct(p, z);
    ExpansionIsProduct(q, z);
  }

  // ----- conjugate-closed lists

  lemma {:induction false} ConjCount(s: seq<Complex>, x: Complex)
    ensures multiset(ConjAll(s))[x] == multiset(s)[Conj(x)]
  {
    if s == [] {
    } else {
      var k := |s| - 1;
      ConjCount(s[..k], x);
      assert s == s[..k] + [s[k]];
      assert ConjAll(s) == ConjAll(s[..k]) + [Conj(s[k])];
      assert Conj(s[k]) == x <==> s[k] == Conj(x);
    }
  }

  lemma ConjClosedPermutes(s: seq<Complex>)
    requires ConjClosed(s)
    ensures multiset(ConjAll(s)) == multiset(s)
  {
    forall x ensures multiset(ConjAll(s))[x] == multiset(s)[x] {
      ConjCount(s, x);
      assert Balanced(s, x);
    }
  }

  lemma ConjMulInAt(c: seq<Complex>, w: Complex, i: nat)
    requires i < |c|
    ensures MulIn(ConjAll(c), Conj(w), ZERO)[i] == ConjAll(MulIn(c, w, ZERO))[i]
  {
    var p := if i == 0 then ZERO else c[i - 1];
    calc {
      MulIn(ConjAll(c), Conj(w), ZERO)[i];
      Add(Mul(Neg(Conj(w)), Conj(c[i])), Conj(p));
      { ConjFactor(w, c[i], p); }
      Conj(Add(Mul(Neg(w), c[i]), p));
      ConjAll(MulIn(c, w, ZERO))[i];
    }
  }

  lemma ConjMulIn(c: seq<Complex>, w: Complex)
    ensures MulIn(ConjAll(c), Conj(w), ZERO) == ConjAll(MulIn(c, w, ZERO))
  {
    var l, r := MulIn(ConjAll(c), Conj(w), ZERO), ConjAll(MulIn(c, w, ZERO));
    assert forall i :: 0 <= i < |c| ==> l[i] == r[i] by {
      forall i | 0 <= i < |c| ensures l[i] == r[i] {
        ConjMulInAt(c, w, i);
      }
    }
  }

  lemma {:induction false} ExpandedConj(roots: seq<Complex>, n: nat)
    ensures Expanded(ConjAll(roots), n) == ConjAll(Expanded(roots, n))
  {
    if roots == [] {
    } else {
      var k := |roots| - 1;
      ExpandedConj(roots[..k], n);
      assert ConjAll(roots)[..k] == ConjAll(roots[..k]);
      ConjMulIn(Expanded(roots[..k], n), roots[k]);
    }
  }

  /** A conjugate-closed list of roots has a real polynomial. */
  lemma ExpansionReal(roots: seq<Complex>, i: nat)
    requires ConjClosed(roots) && i <= |roots|
    ensures Expansion(roots)[i].im == 0.0
  {
    ConjClosedPermutes(roots);
    ExpandedPermuted(ConjAll(roots), roots, |roots|);
    ExpandedConj(roots, |roots|);
    assert Expansion(roots)[i] == Conj(Expansion(roots)[i]);
  }

  /** Takes one real root, or one root with its conjugate, off a conjugate-closed list. */
  lemma SplitConjugates(s: seq<Complex>) returns (rest: seq<Complex>, a: Complex)
    requires s != [] && ConjClosed(s)
    ensures ConjClosed(rest) && |rest| < |s|
    ensures multiset(s) == if a.im == 0.0 then multiset(rest + [a]) else multiset(rest + [Conj(a)] + [a])
  {
    a := s[|s| - 1];
    var t := s[..|s| - 1];
    assert s == t + [a];
    assert multiset(s) == multiset(t) + multiset{a};
    var b := Conj(a);
    assert Balanced(s, a);
    if a.im == 0.0 {
      rest := t;
      assert b == a;
      forall x ensures Balanced(rest, x) {
        assert Balanced(s, x);
        assert x == a <==> Conj(x) == a;
      }
    } else {
      assert b != a;
      assert multiset(s)[b] > 0;
      assert b in t;
      var p, q := SplitAt(t, b);
      rest := p + q;
      assert multiset(s) == multiset(rest) + multiset{b} + multiset{a};
      forall x ensures Balanced(rest, x) {
        assert Balanced(s, x);
        assert x == a <==> Conj(x) == b;
        assert x == b <==> Conj(x) == a;
      }
    }
  }

  ghost predicate InsideUnitCircle(s: seq<Complex>) {
    forall x :: x in multiset(s) ==> NormSq(x) < 1.0
  }

  lemma RootProductSnoc(s: seq<Complex>, x: Complex, z: Complex)
    ensures RootProduct(s + [x], z) == Mul(RootProduct(s, z), Sub(z, x))
  {
    assert (s + [x])[..|s|] == s;
  }

  lemma OneSquared(x: real)
    requires x >= 1.0
    ensures x * x >= 1.0
  {
  }

  lemma BelowOne(x: real, y: real)
    requires x * x + y * y < 1.0
    ensures x < 1.0
  {
    SquaresPositive(y, x);
    if x >= 1.0 {
      OneSquared(x);
    }
  }

  lemma OneMinusInside(a: Complex)
    requires NormSq(a) < 1.0
    ensures a.re < 1.0
    ensures NormSq(Sub(ONE, a)) > 0.0
  {
    BelowOne(a.re, a.im);
    NormSqPositive(Sub(ONE, a));
  }

  lemma TimesReal(p: Complex, d: Complex)
    requires p.im == 0.0 && d.im == 0.0 && p.re > 0.0 && d.re > 0.0
    ensures Mul(p, d).im == 0.0 && Mul(p, d).re > 0.0
  {
  }

  lemma TimesConjugatePair(p: Complex, d: Complex)
    requires p.im == 0.0 && p.re > 0.0 && NormSq(d) > 0.0
    ensures Mul(Mul(p, Conj(d)), d).im == 0.0 && Mul(Mul(p, Conj(d)), d).re > 0.0
  {
    assert Mul(Mul(p, Conj(d)), d).re == p.re * NormSq(d);
  }

  /** The product of (1 - p) over conjugate-closed poles strictly inside the unit circle is real and positive. */
  lemma {:induction false} ProductAtOnePositive(s: seq<Complex>)
    requires ConjClosed(s) && InsideUnitCircle(s)
    ensures RootProduct(s, ONE).im == 0.0
    ensures RootProduct(s, ONE).re > 0.0
    decreases |s|
  {
    if s == [] {
    } else {
      var rest, a := SplitConjugates(s);
      assert multiset(rest) <= multiset(s) && a in multiset(s);
      ProductAtOnePositive(rest);
      OneMinusInside(a);
      var p, d := RootProduct(rest, ONE), Sub(ONE, a);
      if a.im == 0.0 {
        RootProductPermuted(s, rest + [a], ONE);
        RootProductSnoc(rest, a, ONE);
        TimesReal(p, d);
      } else {
        RootProductPermuted(s, rest + [Conj(a)] + [a], ONE);
        RootProductSnoc(rest, Conj(a), ONE);
        RootProductSnoc(rest + [Conj(a)], a, ONE);
        assert Sub(ONE, Conj(a)) == Conj(d);
        TimesConjugatePair(p, d);
      }
    }
  }
}
