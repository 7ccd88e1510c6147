/**
 The Z-filter guide algorithm: shift registers run inside the guiding loop. The open-loop reference is the
 difference equation over the whole history of the uncorrected waveform.
 */
module ZFilter {
  import opened Reals
  import opened ComplexNumbers
  import opened Polynomials
  import opened ZFilterDesign
  import opened ZFilterResponse

  datatype Filter = Filter(xcoeff: seq<real>, ycoeff: seq<real>, gain: real, minMove: real)
  datatype State = State(xv: seq<real>, yv: seq<real>, sumCorr: real)

  ghost predicate Ready(f: Filter) {
    |f.xcoeff| > 0 && |f.ycoeff| > 0 && f.gain > 0.0 && f.minMove >= 0.0
  }

  ghost predicate Fits(f: Filter, s: State) {
    |s.xv| == |f.xcoeff| && |s.yv| == |f.ycoeff|
  }

  /** Sum of a[i] * b[i] for lo <= i < hi. */
  function Dot(a: seq<real>, b: seq<real>, lo: nat, hi: nat): real
    requires hi <= |a| && hi <= |b|
  {
    if hi <= lo then 0.0 else Dot(a, b, lo, hi - 1) + a[hi - 1] * b[hi - 1]
  }

  function Shift(v: seq<real>, x: real): (r: seq<real>)
    requires |v| > 0
    ensures |r| == |v|
  {
    [x] + v[..|v| - 1]
  }

  /** The next filter output from the shifted registers; yv[0] does not take part. */
  function NextOutput(f: Filter, xv: seq<real>, yv: seq<real>): real
    requires |xv| == |f.xcoeff| && |yv| == |f.ycoeff|
  {
    Dot(xv, f.xcoeff, 0, |xv|) + Dot(yv, f.ycoeff, 1, |yv|)
  }

  function Reset(f: Filter): State {
    State(seq(|f.xcoeff|, _ => 0.0), seq(|f.ycoeff|, _ => 0.0), 0.0)
  }

  function Step(f: Filter, s: State, input: real): (r: (State, real))
    requires Ready(f) && Fits(f, s)
    ensures Fits(f, r.0)
  {
    var xv := Shift(s.xv, (input + s.sumCorr) / f.gain);
    var y := NextOutput(f, xv, Shift(s.yv, 0.0));
    var move := if Abs(y - s.sumCorr) < f.minMove then 0.0 else y - s.sumCorr;
    (State(xv, Shift(s.yv, y), s.sumCorr + move), move)
  }

  // ----- the guiding loop and the open-loop reference

  function Sum(s: seq<real>): real {
    if s == [] then 0.0 else Sum(s[..|s| - 1]) + s[|s| - 1]
  }

  /**
   The guiding loop from state s with the mount at offset p0: every input is the waveform less everything the
   mount has been moved. Yields the final state and the moves returned.
   */
  function Loop(f: Filter, s: State, p0: real, w: seq<real>): (r: (State, seq<real>))
    requires Ready(f) && Fits(f, s)
    ensures Fits(f, r.0) && |r.1| == |w|
  {
    if w == [] then (s, [])
    else
      var n := |w| - 1;
      var before := Loop(f, s, p0, w[..n]);
      var step := Step(f, before.0, w[n] - (p0 + Sum(before.1)));
      (step.0, before.1 + [step.1])
  }

  function Scaled(w: seq<real>, gain: real): (r: seq<real>)
    requires gain > 0.0
    ensures |r| == |w|
  {
    seq(|w|, i requires 0 <= i < |w| => w[i] / gain)
  }

  /** A signal that was 0 before it began. */
  function At(s: seq<real>, k: int): real {
    if 0 <= k < |s| then s[k] else 0.0
  }

  /** Sum of s(t - i) * c[i] for lo <= i < hi. */
  function Convolve(s: seq<real>, c: seq<real>, t: int, lo: nat, hi: nat): real
    requires hi <= |c|
  {
    if hi <= lo then 0.0 else Convolve(s, c, t, lo, hi - 1) + At(s, t - (hi - 1)) * c[hi - 1]
  }

  /** The difference equation y(t) = sum u(t-i) x[i] + sum (i >= 1) y(t-i) y[i] over the whole history. */
  function OpenLoop(f: Filter, u: seq<real>): (r: seq<real>)
    ensures |r| == |u|
  {
    if u == [] then []
    else
      var t := |u| - 1;
      var y := OpenLoop(f, u[..t]);
      y + [Convolve(u, f.xcoeff, t, 0, |f.xcoeff|) + Convolve(y, f.ycoeff, t, 1, |f.ycoeff|)]
  }

  /** The register v holds the last |v| samples of s, newest first. */
  ghost predicate Holds(v: seq<real>, s: seq<real>) {
    forall i :: 0 <= i < |v| ==> v[i] == At(s, |s| - 1 - i)
  }

  lemma {:induction false} DotIsConvolve(v: seq<real>, s: seq<real>, c: seq<real>, t: int, lo: nat, hi: nat)
    requires hi <= |v| && hi <= |c|
    requires forall i :: lo <= i < hi ==> v[i] == At(s, t - i)
    ensures Dot(v, c, lo, hi) == Convolve(s, c, t, lo, hi)
  {
    if hi <= lo {
    } else {
      DotIsConvolve(v, s, c, t, lo, hi - 1);
    }
  }

  lemma ShiftHolds(v: seq<real>, s: seq<real>, x: real)
    requires |v| > 0 && Holds(v, s)
    ensures Holds(Shift(v, x), s + [x])
  {
    var r, t := Shift(v, x), s + [x];
    forall i | 0 <= i < |r| ensures r[i] == At(t, |t| - 1 - i) {
      if i > 0 {
        assert r[i] == v[i - 1];
      }
    }
  }

  /** One step keeps the registers equal to the open-loop history, whatever move is made. */
  lemma StepHolds(f: Filter, s: State, input: real, u: seq<real>)
    requires Ready(f) && Fits(f, s)
    requires Holds(s.xv, u) && Holds(s.yv, OpenLoop(f, u))
    ensures var next, u' := Step(f, s, input).0, u + [(input + s.sumCorr) / f.gain];
            && Holds(next.xv, u') && Holds(next.yv, OpenLoop(f, u')) && next.yv[0] == OpenLoop(f, u')[|u|]
  {
    var x := (input + s.sumCorr) / f.gain;
    var u', y, t := u + [x], OpenLoop(f, u), |u|;
    assert u'[..t] == u;
    var xv, shifted := Shift(s.xv, x), Shift(s.yv, 0.0);
    ShiftHolds(s.xv, u, x);
    forall i | 1 <= i < |shifted| ensures shifted[i] == At(y, t - i) {
      assert shifted[i] == s.yv[i - 1];
    }
    DotIsConvolve(xv, u', f.xcoeff, t, 0, |xv|);
    DotIsConvolve(shifted, y, f.ycoeff, t, 1, |shifted|);
    ShiftHolds(s.yv, y, NextOutput(f, xv, shifted));
  }

  /** What holds of the loop after the waveform w: its state s and the moves it returned. */
  ghost predicate Transparent(f: Filter, w: seq<real>, s: State, moves: seq<real>)
    requires Ready(f)
  {
    var u := Scaled(w, f.gain);
    && |moves| == |w|
    && Holds(s.xv, u) && Holds(s.yv, OpenLoop(f, u))
    && s.sumCorr == Sum(moves)
    && (w != [] ==> Follows(f, OpenLoop(f, u)[|w| - 1], s.sumCorr, moves[|w| - 1]))
  }

  /** No move was made if the filter output was less than the minimum move away, and else the correction equals it. */
  ghost predicate Follows(f: Filter, y: real, sumCorr: real, move: real) {
    if Abs(y - (sumCorr - move)) < f.minMove then move == 0.0 else sumCorr == y
  }

  lemma StepTransparent(f: Filter, w: seq<real>, x: real, s: State, moves: seq<real>)
    requires Ready(f) && Fits(f, s) && Transparent(f, w, s, moves)
    ensures var step := Step(f, s, x - Sum(moves));
            Transparent(f, w + [x], step.0, moves + [step.1])
  {
    var u, u' := Scaled(w, f.gain), Scaled(w + [x], f.gain);
    var input := x - Sum(moves);
    assert u' == u + [(input + s.sumCorr) / f.gain];
    StepHolds(f, s, input, u);
    var step := Step(f, s, input);
    assert (moves + [step.1])[..|moves|] == moves;
    assert step.0.yv[0] == OpenLoop(f, u')[|w|];
  }

  lemma LoopSnoc(f: Filter, s: State, p0: real, w: seq<real>, x: real)
    requires Ready(f) && Fits(f, s)
    ensures var (before, moves) := Loop(f, s, p0, w);
            var (after, move) := Step(f, before, x - (p0 + Sum(moves)));
            Loop(f, s, p0, w + [x]) == (after, moves + [move])
  {
    hide Step;
    assert (w + [x])[..|w|] == w;
  }

  lemma LoopStart(f: Filter, s: State, p0: real)
    requires Ready(f) && Fits(f, s)
    ensures Loop(f, s, p0, []) == (s, [])
  {
  }

  lemma TransparentStart(f: Filter)
    requires Ready(f)
    ensures Transparent(f, [], Reset(f), [])
  {
  }

  /**
   Feedback transparency: in the loop, the registers hold the uncorrected waveform and its open-loop filtering,
   the running correction is the sum of the moves, and it agrees with the filter output up to the minimum move.
   */
  lemma {:induction false} FeedbackTransparent(f: Filter, w: seq<real>)
    requires Ready(f)
    ensures Transparent(f, w, Loop(f, Reset(f), 0.0, w).0, Loop(f, Reset(f), 0.0, w).1)
  {
    hide Step, Loop, Transparent;
    if w == [] {
      LoopStart(f, Reset(f), 0.0);
      TransparentStart(f);
    } else {
      var n := |w| - 1;
      FeedbackTransparent(f, w[..n]);
      var (s, moves) := Loop(f, Reset(f), 0.0, w[..n]);
      LoopSnoc(f, Reset(f), 0.0, w[..n], w[n]);
      StepTransparent(f, w[..n], w[n], s, moves);
      assert w[..n] + [w[n]] == w;
    }
  }

  /** The registers do not depend on the minimum move. */
  lemma MinMoveIrrelevant(f: Filter, minMove: real, w: seq<real>)
    requires Ready(f) && minMove >= 0.0
    ensures var g := f.(minMove := minMove);
            var s, t := Loop(f, Reset(f), 0.0, w).0, Loop(g, Reset(g), 0.0, w).0;
            s.xv == t.xv && s.yv == t.yv
  {
    hide Step, Loop;
    var g := f.(minMove := minMove);
    FeedbackTransparent(f, w);
    FeedbackTransparent(g, w);
    OpenLoopIgnoresMinMove(f, g, Scaled(w, f.gain));
  }

  lemma {:induction false} OpenLoopIgnoresMinMove(f: Filter, g: Filter, u: seq<real>)
    requires g == f.(minMove := g.minMove)
    ensures OpenLoop(f, u) == OpenLoop(g, u)
  {
    if u == [] {
    } else {
      OpenLoopIgnoresMinMove(f, g, u[..|u| - 1]);
    }
  }

  // ----- unity gain at DC

  lemma DotTerm(x: real, y: real, sum: real, last: real)
    requires x == y
    ensures x * sum + y * last == x * (sum + last)
  {
  }

  lemma {:induction false} DotConstant(v: seq<real>, c: seq<real>, x: real, lo: nat, hi: nat)
    requires hi <= |v| && hi <= |c| && lo <= hi
    requires forall i :: lo <= i < hi ==> v[i] == x
    ensures Dot(v, c, lo, hi) == x * SumReal(c[lo..hi])
  {
    if hi > lo {
      DotConstant(v, c, x, lo, hi - 1);
      assert c[lo..hi] == c[lo..hi - 1] + [c[hi - 1]];
      SumRealSnoc(c[lo..hi - 1], c[hi - 1]);
      DotTerm(x, v[hi - 1], SumReal(c[lo..hi - 1]), c[hi - 1]);
    } else {
      assert c[lo..hi] == [];
    }
  }

  lemma {:induction false} SumRealSnoc(s: seq<real>, x: real)
    ensures SumReal(s + [x]) == SumReal(s) + x
  {
    if s == [] {
      assert s + [x] == [x];
    } else {
      assert (s + [x])[1..] == s[1..] + [x];
      SumRealSnoc(s[1..], x);
    }
  }

  /** The filter divides by its DC gain, so that constants pass unchanged. */
  ghost predicate UnityGain(f: Filter) {
    Ready(f) && f.ycoeff[0] == -1.0 && SumReal(f.xcoeff) == -SumReal(f.ycoeff) * f.gain
  }

  lemma GainCancels(u: real, g: real, sx: real, sy: real)
    requires g > 0.0 && sx == -sy * g
    ensures (u / g) * sx + u * (sy + 1.0) == u
  {
    var q := u / g;
    assert q * g == u;
    assert q * (-sy * g) == -sy * (q * g);
  }

  lemma ConstantPasses(f: Filter, xv: seq<real>, yv: seq<real>, u: real)
    requires UnityGain(f) && |xv| == |f.xcoeff| && |yv| == |f.ycoeff|
    requires forall i :: 0 <= i < |xv| ==> xv[i] == u / f.gain
    requires forall i :: 1 <= i < |yv| ==> yv[i] == u
    ensures NextOutput(f, xv, yv) == u
  {
    hide Dot;
    var nx, ny := |xv|, |yv|;
    DotConstant(xv, f.xcoeff, u / f.gain, 0, nx);
    DotConstant(yv, f.ycoeff, u, 1, ny);
    assert f.xcoeff[0..nx] == f.xcoeff && f.ycoeff[1..ny] == f.ycoeff[1..];
    var sx, sy, g := SumReal(f.xcoeff), SumReal(f.ycoeff), f.gain;
    assert SumReal(f.ycoeff[1..]) == sy + 1.0;
    GainCancels(u, g, sx, sy);
  }

  /** The loop follows a constant waveform: the registers hold it and the mount has been moved by it. */
  ghost predicate Settled(f: Filter, s: State, u: real)
    requires Ready(f)
  {
    && Fits(f, s) && s.sumCorr == u
    && (forall i :: 0 <= i < |s.xv| ==> s.xv[i] == u / f.gain)
    && (forall i :: 0 <= i < |s.yv| ==> s.yv[i] == u)
  }

  lemma SettledStep(f: Filter, s: State, u: real)
    requires UnityGain(f) && Settled(f, s, u)
    ensures Step(f, s, 0.0) == (s, 0.0)
  {
    var xv := Shift(s.xv, u / f.gain);
    assert xv == s.xv;
    ConstantPasses(f, xv, Shift(s.yv, 0.0), u);
    assert Shift(s.yv, u) == s.yv;
  }

  ghost predicate Still(f: Filter, s: State, u: real, w: seq<real>)
    requires Ready(f) && Fits(f, s)
  {
    var (t, moves) := Loop(f, s, u, w);
    t == s && (forall i :: 0 <= i < |w| ==> moves[i] == 0.0) && Sum(moves) == 0.0
  }

  lemma {:induction false} FixpointStaysStill(f: Filter, s: State, u: real, w: seq<real>)
    requires Ready(f) && Fits(f, s) && Step(f, s, 0.0) == (s, 0.0)
    requires forall i :: 0 <= i < |w| ==> w[i] == u
    ensures Still(f, s, u, w)
  {
    hide Step;
    if w == [] {
    } else {
      var n := |w| - 1;
      FixpointStaysStill(f, s, u, w[..n]);
      var moves := Loop(f, s, u, w[..n]).1;
      assert Loop(f, s, u, w) == (s, moves + [0.0]);
      assert (moves + [0.0])[..n] == moves;
    }
  }

  /** A constant waveform that the loop already follows causes no further move, for as long as it lasts. */
  lemma SettledStaysStill(f: Filter, s: State, u: real, w: seq<real>)
    requires UnityGain(f) && Settled(f, s, u)
    requires forall i :: 0 <= i < |w| ==> w[i] == u
    ensures Still(f, s, u, w)
  {
    SettledStep(f, s, u);
    FixpointStaysStill(f, s, u, w);
  }

  /** The recurrence of a stable design. */
  ghost predicate Stable(f: Filter, poles: seq<Complex>) {
    && Ready(f) && |f.xcoeff| == |f.ycoeff|
    && ConjClosed(poles) && InsideUnitCircle(poles) && Feeds(f.ycoeff, poles)
  }

  lemma SumsAtOne(xc: seq<real>, yc: seq<real>, zeros: seq<Complex>, poles: seq<Complex>)
    requires Realises(xc, yc, zeros, poles)
    ensures SumReal(xc) == RootProduct(zeros, ONE).re
    ensures SumReal(yc) == -RootProduct(poles, ONE).re
  {
    EvalAtOne(xc);
    EvalAtOne(yc);
    assert Eval(AsPolynomial(xc), ONE) == RootProduct(zeros, ONE);
    assert Eval(AsPolynomial(yc), ONE) == Neg(RootProduct(poles, ONE));
  }

  lemma UnityFromSums(f: Filter, dc: Complex, num: Complex, den: Complex)
    requires dc.im == 0.0 && f.gain == dc.re && Mul(dc, den) == num
    requires SumReal(f.xcoeff) == num.re && SumReal(f.ycoeff) == -den.re
    ensures SumReal(f.xcoeff) == -SumReal(f.ycoeff) * f.gain
  {
  }

  /** A finished design has unity gain at DC once its inputs are divided by its gain. */
  lemma DesignHasUnityGain(f: Filter, zeros: seq<Complex>, poles: seq<Complex>, dc: Complex)
    requires Realises(f.xcoeff, f.ycoeff, zeros, poles) && |f.xcoeff| > 0 && f.minMove >= 0.0
    requires IsGain(dc, zeros, poles) && f.gain == dc.re
    ensures UnityGain(f)
  {
    SumsAtOne(f.xcoeff, f.ycoeff, zeros, poles);
    UnityFromSums(f, dc, RootProduct(zeros, ONE), RootProduct(poles, ONE));
  }

  function AllAtMinusOne(n: nat): seq<Complex> {
    seq(n, _ => MINUS_ONE)
  }

  lemma RealGain(dc: Complex, zeros: seq<Complex>, poles: seq<Complex>)
    requires IsGain(dc, zeros, poles)
    ensures dc == Complex(dc.re, 0.0) && dc.re > 0.0
  {
  }

  lemma RealisesFeeds(xc: seq<real>, yc: seq<real>, zeros: seq<Complex>, poles: seq<Complex>)
    requires Realises(xc, yc, zeros, poles)
    ensures Feeds(yc, poles)
  {
  }

  // ----- the algorithm object

  class GuideAlgorithmZFilter {
    var xcoeff: seq<real>
    var ycoeff: seq<real>
    var gain: real
    var minMove: real
    var xv: seq<real>
    var yv: seq<real>
    var sumCorr: real

    function Config(): Filter
      reads this
    {
      Filter(xcoeff, ycoeff, gain, minMove)
    }

    function Registers(): State
      reads this
    {
      State(xv, yv, sumCorr)
    }

    ghost predicate Valid()
      reads this
    {
      Ready(Config()) && Fits(Config(), Registers())
    }

    constructor ()
      ensures xcoeff == [] && ycoeff == [] && Registers() == State([], [], 0.0) && minMove == 0.0
    {
      xcoeff, ycoeff, gain, minMove := [], [], 1.0, 0.0;
      xv, yv, sumCorr := [], [], 0.0;
    }

    method Clear()
      modifies this`xv, this`yv, this`sumCorr
      ensures Registers() == Reset(Config())
    {
      xv := seq(|xcoeff|, _ => 0.0);
      yv := seq(|ycoeff|, _ => 0.0);
      sumCorr := 0.0;
    }

    /**
     Takes over the coefficients and gain of a new design; bError is the source's error result. tangent(x) stands for
     tan(pi x), polar(k) for the point on the unit circle at k pi / (2 order).
     */
    method BuildFilter(order: int, expFactor: real, polar: int -> Complex, tangent: real -> real)
      returns (bError: bool, ghost proto: seq<Complex>, ghost poles: seq<Complex>)
      requires expFactor * 4.0 >= 6.0 ==> order <= 10
      requires expFactor * 4.0 < 6.0 && order >= 1 ==> OnUnitCircle(polar, order)
      requires expFactor >= 1.0 ==> tangent(1.0 / (expFactor * 4.0)) > 0.0
      requires minMove >= 0.0
      modifies this`xcoeff, this`ycoeff, this`gain, this`xv, this`yv, this`sumCorr
      ensures bError <==> order < 1 || expFactor < 1.0
      ensures bError ==> Config() == old(Config()) && Registers() == old(Registers())
      ensures !bError ==> Valid() && UnityGain(Config()) && Registers() == Reset(Config()) && minMove == old(minMove)
      ensures !bError ==> Stable(Config(), poles) && |poles| == order
      ensures !bError ==>
                IsPrototype(BESSEL_POLES, if expFactor * 4.0 < 6.0 then Butterworth else Bessel, order, polar, proto)
      ensures !bError ==>
                Designed(xcoeff, ycoeff, gain, AllAtMinusOne(|poles|), poles, proto,
                         2.0 * tangent(1.0 / (expFactor * 4.0)))
    {
      hide OnUnitCircle, IsPrototype, Placed, ConjClosed, Realises, IsGain, BESSEL_POLES;
      proto, poles := [], [];
      if order < 1 || expFactor < 1.0 {
        return true, proto, poles;
      }
      var corner := expFactor * 4.0;
      var design := if corner < 6.0 then Butterworth else Bessel;
      var made;
      made, proto := ZFilterFactory.Make(design, order, corner, polar, tangent);
      var factory := made.value;
      poles := factory.zpoles;
      gain := factory.Gain();
      xcoeff, ycoeff := factory.xcoeffs, factory.ycoeffs;
      assert factory.zzeros == AllAtMinusOne(|poles|);
      RealGain(factory.dcGain, factory.zzeros, poles);
      DesignHasUnityGain(Config(), factory.zzeros, poles, factory.dcGain);
      RealisesFeeds(xcoeff, ycoeff, factory.zzeros, poles);
      Clear();
      bError := false;
    }

    /** Calculates the filtered value into yv[0], term by term. */
    method Accumulate()
      requires |xv| == |xcoeff| && |yv| == |ycoeff| > 0 && yv[0] == 0.0
      modifies this`yv
      ensures yv == old(yv)[0 := NextOutput(Config(), xv, old(yv))]
    {
      ghost var was := yv;
      var i := 0;
      while i < |xcoeff|
        invariant 0 <= i <= |xcoeff|
        invariant yv == was[0 := Dot(xv, xcoeff, 0, i)]
      {
        yv := yv[0 := yv[0] + xv[i] * xcoeff[i]];
        i := i + 1;
        assert yv[0] == Dot(xv, xcoeff, 0, i);
      }
      ghost var fed := yv[0];
      i := 1;
      while i < |ycoeff|
        invariant 1 <= i <= |ycoeff|
        invariant yv == was[0 := fed + Dot(was, ycoeff, 1, i)]
      {
        assert yv[i] == was[i];
        yv := yv[0 := yv[0] + yv[i] * ycoeff[i]];
        i := i + 1;
        assert yv[0] == fed + Dot(was, ycoeff, 1, i);
      }
    }

    method Result(input: real) returns (dReturn: real)
      requires Valid()
      modifies this`xv, this`yv, this`sumCorr
      ensures Valid()
      ensures (Registers(), dReturn) == Step(Config(), old(Registers()), input)
    {
      xv := [(input + sumCorr) / gain] + xv;
      xv := xv[..|xv| - 1];
      yv := [0.0] + yv;
      yv := yv[..|yv| - 1];
      assert xv == Shift(old(xv), (input + sumCorr) / gain);
      assert yv == Shift(old(yv), 0.0);
      Accumulate();
      dReturn := yv[0] - sumCorr;
      assert yv == Shift(old(yv), yv[0]);
      if Abs(dReturn) < minMove {
        dReturn := 0.0;
      }
      sumCorr := sumCorr + dReturn;
    }
  }
}
