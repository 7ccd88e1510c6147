/**
 The event client: running statistics over the guide steps of a window that the event stream defines, equal to the
 two-pass statistics of those samples.
 */
module EventClient {
  import opened Options
  import opened Reals

  // ----- two-pass statistics

  function Sum(xs: seq<real>): real {
    if xs == [] then 0.0 else Sum(xs[..|xs| - 1]) + xs[|xs| - 1]
  }

  function Mean(xs: seq<real>): real {
    if xs == [] then 0.0 else Sum(xs) / (|xs| as real)
  }

  /** Sum of the squared distances from m. */
  function SquaredDeviations(xs: seq<real>, m: real): real {
    if xs == [] then 0.0
    else SquaredDeviations(xs[..|xs| - 1], m) + Square(xs[|xs| - 1] - m)
  }

  function Variance(xs: seq<real>): real {
    if xs == [] then 0.0 else SquaredDeviations(xs, Mean(xs)) / (|xs| as real)
  }

  function PeakOf(xs: seq<real>): real {
    if xs == [] then 0.0 else MaxReal(PeakOf(xs[..|xs| - 1]), Abs(xs[|xs| - 1]))
  }

  lemma PeakSnoc(xs: seq<real>, x: real)
    ensures PeakOf(xs + [x]) == MaxReal(PeakOf(xs), Abs(x))
  {
    assert (xs + [x])[..|xs|] == xs;
  }

  /** The peak is the largest magnitude, and 0 for no samples. */
  lemma {:induction false} PeakIsLargest(xs: seq<real>)
    ensures forall i :: 0 <= i < |xs| ==> Abs(xs[i]) <= PeakOf(xs)
    ensures xs != [] ==> exists i :: 0 <= i < |xs| && Abs(xs[i]) == PeakOf(xs)
  {
    if xs == [] {
    } else {
      var n := |xs| - 1;
      PeakIsLargest(xs[..n]);
      assert forall i :: 0 <= i < n ==> xs[..n][i] == xs[i];
      if n == 0 || PeakOf(xs) == Abs(xs[n]) {
        assert 0 <= n < |xs| && Abs(xs[n]) == PeakOf(xs);
      } else {
        var i :| 0 <= i < n && Abs(xs[..n][i]) == PeakOf(xs[..n]);
        assert Abs(xs[i]) == PeakOf(xs);
      }
    }
  }

  // ----- Welford's recurrence

  function SumOfSquares(xs: seq<real>): real {
    if xs == [] then 0.0 else SumOfSquares(xs[..|xs| - 1]) + Square(xs[|xs| - 1])
  }

  /** The squared deviations from c in terms of the moments: count k, sum s, sum of squares ss. */
  function FromMoments(ss: real, s: real, k: real, c: real): real {
    ss - 2.0 * (c * s) + k * (c * c)
  }

  lemma OneMoreMoment(ss: real, s: real, k: real, x: real, c: real)
    ensures FromMoments(ss, s, k, c) + Square(x - c) == FromMoments(ss + Square(x), s + x, k + 1.0, c)
  {
    assert c * (s + x) == c * s + c * x;
    assert (k + 1.0) * (c * c) == k * (c * c) + c * c;
    assert (x - c) * (x - c) == x * x - 2.0 * (c * x) + c * c;
  }

  lemma {:induction false} DeviationsFromMoments(xs: seq<real>, c: real)
    ensures SquaredDeviations(xs, c) == FromMoments(SumOfSquares(xs), Sum(xs), |xs| as real, c)
  {
    if xs == [] {
    } else {
      var n := |xs| - 1;
      DeviationsFromMoments(xs[..n], c);
      OneMoreMoment(SumOfSquares(xs[..n]), Sum(xs[..n]), n as real, xs[n], c);
      assert |xs| as real == n as real + 1.0;
    }
  }

  /** m is the mean of the samples; of no samples it may be anything. */
  ghost predicate Centre(xs: seq<real>, m: real) {
    Product(m, |xs| as real) == Sum(xs)
  }

  lemma CentreIsMean(xs: seq<real>, m: real)
    requires Centre(xs, m) && xs != []
    ensures m == Mean(xs)
  {
    QuotientIs(m, |xs| as real, Sum(xs));
  }

  lemma QuotientIs(c: real, n: real, t: real)
    requires n > 0.0 && c * n == t
    ensures t / n == c
  {
  }

  lemma MomentsSnoc(xs: seq<real>, x: real, c: real)
    ensures SquaredDeviations(xs + [x], c)
         == FromMoments(SumOfSquares(xs) + Square(x), Sum(xs) + x, |xs| as real + 1.0, c)
  {
    assert (xs + [x])[..|xs|] == xs;
    assert |xs + [x]| as real == |xs| as real + 1.0;
    DeviationsFromMoments(xs + [x], c);
  }

  lemma SumSnoc(xs: seq<real>, x: real)
    ensures Sum(xs + [x]) == Sum(xs) + x
  {
    assert (xs + [x])[..|xs|] == xs;
  }

  lemma CentreSnoc(xs: seq<real>, x: real, c: real)
    ensures Centre(xs + [x], c) <==> Product(c, |xs| as real + 1.0) == Sum(xs) + x
  {
    SumSnoc(xs, x);
    assert |xs + [x]| as real == |xs| as real + 1.0;
  }

  /** The running mean moves to the new mean. */
  lemma RunningMean(xs: seq<real>, x: real, m: real)
    requires Centre(xs, m)
    ensures Centre(xs + [x], m + (x - m) / (|xs| as real + 1.0))
  {
    var k := |xs| as real;
    RunningProduct(m, x, k);
    CentreSnoc(xs, x, m + (x - m) / (k + 1.0));
  }

  lemma RunningProduct(m: real, x: real, k: real)
    requires k >= 0.0
    ensures (m + (x - m) / (k + 1.0)) * (k + 1.0) == m * k + x
  {
    var n := k + 1.0;
    var q := (x - m) / n;
    assert q * n == x - m;
    assert (m + q) * n == m * n + q * n;
  }

  /** Welford: the sum of squared deviations from the mean grows by the product of the two deviations of x. */
  lemma WelfordStep(xs: seq<real>, x: real, m: real, c: real)
    requires Centre(xs, m) && Centre(xs + [x], c)
    ensures SquaredDeviations(xs + [x], c) == SquaredDeviations(xs, m) + (x - m) * (x - c)
  {
    var k := |xs| as real;
    CentreSnoc(xs, x, c);
    calc {
      SquaredDeviations(xs + [x], c);
      { MomentsSnoc(xs, x, c); }
      FromMoments(SumOfSquares(xs) + Square(x), Sum(xs) + x, k + 1.0, c);
      { MomentsStep(SumOfSquares(xs), Sum(xs), k, x, m, c); }
      FromMoments(SumOfSquares(xs), Sum(xs), k, m) + (x - m) * (x - c);
      { DeviationsFromMoments(xs, m); }
      SquaredDeviations(xs, m) + (x - m) * (x - c);
    }
  }

  /** Welford's identity on moments: s = k m and s + x = (k + 1) c. */
  lemma MomentsStep(ss: real, s: real, k: real, x: real, m: real, c: real)
    requires m * k == s && c * (k + 1.0) == s + x
    ensures FromMoments(ss + Square(x), s + x, k + 1.0, c) == FromMoments(ss, s, k, m) + (x - m) * (x - c)
  {
    assert FromMoments(ss + Square(x), s + x, k + 1.0, c) == ss + x * x - c * (s + x) by {
      assert (k + 1.0) * (c * c) == c * (c * (k + 1.0));
    }
    assert FromMoments(ss, s, k, m) == ss - m * s by {
      assert k * (m * m) == m * (m * k);
    }
    CrossTerms(s, k, x, m, c);
  }

  lemma CrossTerms(s: real, k: real, x: real, m: real, c: real)
    requires m * k == s && c * (k + 1.0) == s + x
    ensures x * x - c * (s + x) == -(m * s) + (x - m) * (x - c)
  {
    assert (x - m) * (x - c) == x * x - x * c - m * x + m * c;
    assert c * s == m * (s + x) - m * c by {
      assert c * s == c * (m * k);
      assert m * (c * (k + 1.0)) == c * (m * k) + m * c;
    }
    assert m * (s + x) == m * s + m * x;
    assert c * (s + x) == c * s + c * x;
  }

  /** The variance is the mean of the squares less the square of the mean. */
  lemma VarianceByMoments(xs: seq<real>)
    requires xs != []
    ensures Variance(xs) == SumOfSquares(xs) / (|xs| as real) - Square(Sum(xs) / (|xs| as real))
  {
    var n, s, ss := |xs| as real, Sum(xs), SumOfSquares(xs);
    DeviationsFromMoments(xs, Mean(xs));
    MomentsQuotient(ss, s, n, Mean(xs));
  }

  lemma MomentsQuotient(ss: real, s: real, n: real, m: real)
    requires n > 0.0 && m == s / n
    ensures FromMoments(ss, s, n, m) / n == ss / n - Square(m)
  {
    assert m * n == s;
    assert FromMoments(ss, s, n, m) == ss - n * (m * m) by {
      assert m * s == n * (m * m);
    }
    QuotientIs(ss / n - m * m, n, ss - n * (m * m));
    assert (ss / n - m * m) * n == ss - n * (m * m);
  }

  class Accum {
    var n: nat
    var a: real
    var q: real
    var peak: real
    ghost var xs: seq<real>

    ghost predicate Valid()
      reads this
    {
      && n == |xs| && Centre(xs, a) && (n == 0 ==> a == 0.0)
      && q == SquaredDeviations(xs, a) && peak == PeakOf(xs)
    }

    constructor ()
      ensures Valid() && xs == []
    {
      n, a, q, peak, xs := 0, 0.0, 0.0, 0.0, [];
    }

    method Reset()
      modifies this
      ensures Valid() && xs == []
    {
      n := 0;
      a, q, peak := 0.0, 0.0, 0.0;
      xs := [];
    }

    method Add(x: real)
      requires Valid()
      modifies this
      ensures Valid() && xs == old(xs) + [x]
    {
      var ax := Abs(x);
      peak := MaxReal(peak, ax);
      PeakSnoc(xs, x);
      n := n + 1;
      MoveMean(x);
      xs := xs + [x];
    }

    /** The running update of mean and squares, with n already counting the new sample. */
    method MoveMean(x: real)
      requires n == |xs| + 1 && Centre(xs, a) && q == SquaredDeviations(xs, a)
      modifies this`a, this`q
      ensures Centre(xs + [x], a) && q == SquaredDeviations(xs + [x], a)
    {
      hide SquaredDeviations, Centre;
      ghost var m, k := a, |xs| as real;
      RunningMean(xs, x, m);
      assert n as real == k + 1.0;
      var d := x - a;
      a := a + d / (n as real);
      assert a == m + (x - m) / (k + 1.0);
      WelfordStep(xs, x, m, a);
      q := q + d * (x - a);
    }

    /** The square of the source's Stdev. */
    function StdevSquared(): real
      requires Valid()
      reads this
      ensures StdevSquared() == Variance(xs)
    {
      if n >= 1 then
        CentreIsMean(xs, a);
        q / (n as real)
      else 0.0
    }
  }

  // ----- events

  datatype Event =
    | AppState(state: string)
    | Version(version: string, subver: string)
    | StartGuiding
    | GuideStep(ra: real, dec: real, avgDist: real)
    | SettleBegin
    | Settling(distance: real, time: real, settleTime: real)
    | SettleDone(status: int, error: Option<string>)
    | Paused
    | StartCalibration
    | LoopingExposures
    | LoopingExposuresStopped
    | GuidingStopped
    | StarLost(lostAvgDist: real)
    | Other

  /** Standard deviations appear as their squares. */
  datatype GuideStats = GuideStats(varRa: real, varDec: real, peakRa: real, peakDec: real)

  datatype SettleProgress = SettleProgress(
    done: bool, distance: real, settlePx: real, time: real, settleTime: real, status: int, error: Option<string>)

  function TwoPass(ras: seq<real>, decs: seq<real>): GuideStats {
    GuideStats(Variance(ras), Variance(decs), PeakOf(ras), PeakOf(decs))
  }

  predicate Resets(e: Event) {
    e.StartGuiding? || e.SettleDone?
  }

  /** One past the last event that starts a new window; 0 if there is none. */
  function WindowStart(t: seq<Event>): (k: nat)
    ensures k <= |t|
    ensures k > 0 ==> Resets(t[k - 1])
    ensures forall i :: k <= i < |t| ==> !Resets(t[i])
  {
    if t == [] then 0 else if Resets(t[|t| - 1]) then |t| else WindowStart(t[..|t| - 1])
  }

  /** The first SettleBegin from k on, or the end of the trace. */
  function WindowEnd(t: seq<Event>, k: nat): (e: nat)
    requires k <= |t|
    ensures k <= e <= |t|
    ensures e < |t| ==> t[e].SettleBegin?
    ensures forall i :: k <= i < e ==> !t[i].SettleBegin?
    decreases |t| - k
  {
    if k == |t| || t[k].SettleBegin? then k else WindowEnd(t, k + 1)
  }

  function Steps(t: seq<Event>): seq<Event> {
    if t == [] then []
    else Steps(t[..|t| - 1]) + if t[|t| - 1].GuideStep? then [t[|t| - 1]] else []
  }

  /** The guide steps of the current window: after the last reset and before the settling that follows it. */
  function Window(t: seq<Event>): seq<Event> {
    var k := WindowStart(t);
    if k == 0 then [] else Steps(t[k..WindowEnd(t, k)])
  }

  /** A window has been opened and no settling has begun since. */
  predicate Open(t: seq<Event>) {
    WindowStart(t) > 0 && WindowEnd(t, WindowStart(t)) == |t|
  }

  lemma {:induction false} StepsAreGuideSteps(t: seq<Event>)
    ensures forall i :: 0 <= i < |Steps(t)| ==> Steps(t)[i].GuideStep?
  {
    if t == [] {
    } else {
      StepsAreGuideSteps(t[..|t| - 1]);
    }
  }

  function Ras(steps: seq<Event>): (r: seq<real>)
    requires forall i :: 0 <= i < |steps| ==> steps[i].GuideStep?
    ensures |r| == |steps|
  {
    seq(|steps|, i requires 0 <= i < |steps| => steps[i].ra)
  }

  function Decs(steps: seq<Event>): (r: seq<real>)
    requires forall i :: 0 <= i < |steps| ==> steps[i].GuideStep?
    ensures |r| == |steps|
  {
    seq(|steps|, i requires 0 <= i < |steps| => steps[i].dec)
  }

  function WindowRas(t: seq<Event>): seq<real> {
    StepsAreGuideSteps(t[WindowStart(t)..WindowEnd(t, WindowStart(t))]);
    Ras(Window(t))
  }

  function WindowDecs(t: seq<Event>): seq<real> {
    StepsAreGuideSteps(t[WindowStart(t)..WindowEnd(t, WindowStart(t))]);
    Decs(Window(t))
  }

  lemma {:induction false} WindowEndSnoc(t: seq<Event>, e: Event, k: nat)
    requires k <= |t|
    ensures WindowEnd(t + [e], k) ==
            if WindowEnd(t, k) < |t| || e.SettleBegin? then WindowEnd(t, k) else |t| + 1
    decreases |t| - k
  {
    if k < |t| && !t[k].SettleBegin? {
      WindowEndSnoc(t, e, k + 1);
    } else if k == |t| && !e.SettleBegin? {
      assert WindowEnd(t + [e], k) == WindowEnd(t + [e], k + 1);
    }
  }

  /** How one more event changes the window. */
  lemma WindowSnoc(t: seq<Event>, e: Event)
    ensures Resets(e) ==> Window(t + [e]) == [] && Open(t + [e])
    ensures !Resets(e) && e.GuideStep? && Open(t) ==> Window(t + [e]) == Window(t) + [e]
    ensures !Resets(e) && !(e.GuideStep? && Open(t)) ==> Window(t + [e]) == Window(t)
    ensures !Resets(e) ==> (Open(t + [e]) <==> Open(t) && !e.SettleBegin?)
  {
    var u := t + [e];
    assert u[..|t|] == t;
    var k := WindowStart(t);
    if Resets(e) {
      assert u[|u|..|u|] == [];
    } else {
      assert WindowStart(u) == k;
      WindowEndSnoc(t, e, k);
      var h := WindowEnd(t, k);
      if h < |t| || e.SettleBegin? {
        assert u[k..h] == t[k..h];
      } else {
        assert u[k..|u|] == t[k..h] + [e];
        assert (t[k..h] + [e])[..|t[k..h]|] == t[k..h];
      }
    }
  }

  /** How one more event changes the samples of the window. */
  lemma WindowValuesSnoc(t: seq<Event>, e: Event)
    ensures Resets(e) ==> WindowRas(t + [e]) == [] && WindowDecs(t + [e]) == [] && Open(t + [e])
    ensures e.GuideStep? && Open(t) ==>
              && WindowRas(t + [e]) == WindowRas(t) + [e.ra]
              && WindowDecs(t + [e]) == WindowDecs(t) + [e.dec]
    ensures !Resets(e) && !(e.GuideStep? && Open(t)) ==>
              WindowRas(t + [e]) == WindowRas(t) && WindowDecs(t + [e]) == WindowDecs(t)
    ensures !Resets(e) ==> (Open(t + [e]) <==> Open(t) && !e.SettleBegin?)
  {
    WindowSnoc(t, e);
  }

  // ----- the client object

  predicate IsGuiding(state: string) {
    state == "Guiding" || state == "LostLock"
  }

  /** What an event makes of the application state; accumulating says whether guide steps count at the moment. */
  function NextAppState(state: string, accumulating: bool, e: Event): string {
    match e
    case AppState(s) => s
    case GuideStep(_, _, _) => if accumulating then "Guiding" else state
    case Paused => "Paused"
    case StartCalibration => "Calibrating"
    case LoopingExposures => "Looping"
    case LoopingExposuresStopped => "Stopped"
    case GuidingStopped => "Stopped"
    case StarLost(_) => "LostLock"
    case _ => state
  }

  function NextAvgDist(avgDist: real, accumulating: bool, e: Event): real {
    match e
    case AppState(s) => if IsGuiding(s) then 0.0 else avgDist
    case GuideStep(_, _, d) => if accumulating then d else avgDist
    case StarLost(d) => d
    case _ => avgDist
  }

  function NextSettle(settle: Option<SettleProgress>, settlePx: real, e: Event): Option<SettleProgress> {
    match e
    case Settling(d, time, settleTime) => Some(SettleProgress(false, d, settlePx, time, settleTime, 0, Some("")))
    case SettleDone(status, error) => Some(SettleProgress(true, 0.0, 0.0, 0.0, 0.0, status, error))
    case _ => settle
  }

  // ----- what the trace shows

  function ShownState(t: seq<Event>): string {
    if t == [] then ""
    else NextAppState(ShownState(t[..|t| - 1]), Open(t[..|t| - 1]), t[|t| - 1])
  }

  function ShownDist(t: seq<Event>): real {
    if t == [] then 0.0
    else NextAvgDist(ShownDist(t[..|t| - 1]), Open(t[..|t| - 1]), t[|t| - 1])
  }

  /** The settling shown, if the tolerance asked for stays the same. */
  function ShownSettle(t: seq<Event>, settlePx: real): Option<SettleProgress> {
    if t == [] then None else NextSettle(ShownSettle(t[..|t| - 1], settlePx), settlePx, t[|t| - 1])
  }

  lemma ShownSnoc(t: seq<Event>, e: Event)
    ensures ShownState(t + [e]) == NextAppState(ShownState(t), Open(t), e)
    ensures ShownDist(t + [e]) == NextAvgDist(ShownDist(t), Open(t), e)
    ensures forall px :: ShownSettle(t + [e], px) == NextSettle(ShownSettle(t, px), px, e)
  {
    assert (t + [e])[..|t|] == t;
  }

  /** An event that says what the state is; a guide step does while the window is open. */
  predicate TellsState(e: Event, open: bool) {
    || e.AppState? || e.Paused? || e.StartCalibration? || e.LoopingExposures? || e.LoopingExposuresStopped?
    || e.GuidingStopped? || e.StarLost? || (e.GuideStep? && open)
  }

  predicate TellsDist(e: Event, open: bool) {
    || (e.AppState? && e.state in {"Guiding", "LostLock"}) || e.StarLost? || (e.GuideStep? && open)
  }

  ghost predicate QuietOnState(t: seq<Event>, u: seq<Event>) {
    forall i :: 0 <= i < |u| ==> !TellsState(u[i], Open(t + u[..i]))
  }

  ghost predicate QuietOnDist(t: seq<Event>, u: seq<Event>) {
    forall i :: 0 <= i < |u| ==> !TellsDist(u[i], Open(t + u[..i]))
  }

  lemma UnchangedState(t: seq<Event>, e: Event)
    requires !TellsState(e, Open(t))
    ensures ShownState(t + [e]) == ShownState(t)
  {
    hide Open;
    ShownSnoc(t, e);
  }

  lemma UnchangedDist(t: seq<Event>, e: Event)
    requires !TellsDist(e, Open(t))
    ensures ShownDist(t + [e]) == ShownDist(t)
  {
    hide Open;
    ShownSnoc(t, e);
  }

  lemma {:induction false} QuietState(t: seq<Event>, u: seq<Event>)
    requires QuietOnState(t, u)
    ensures ShownState(t + u) == ShownState(t)
  {
    hide ShownState, Open, TellsState;
    if u == [] {
      assert t + u == t;
    } else {
      var n := |u| - 1;
      var v := u[..n];
      forall i | 0 <= i < n ensures !TellsState(v[i], Open(t + v[..i])) {
        assert v[..i] == u[..i];
      }
      QuietState(t, v);
      UnchangedState(t + v, u[n]);
      assert t + u == t + v + [u[n]];
    }
  }

  lemma {:induction false} QuietDist(t: seq<Event>, u: seq<Event>)
    requires QuietOnDist(t, u)
    ensures ShownDist(t + u) == ShownDist(t)
  {
    hide ShownDist, Open, TellsDist;
    if u == [] {
      assert t + u == t;
    } else {
      var n := |u| - 1;
      var v := u[..n];
      forall i | 0 <= i < n ensures !TellsDist(v[i], Open(t + v[..i])) {
        assert v[..i] == u[..i];
      }
      QuietDist(t, v);
      UnchangedDist(t + v, u[n]);
      assert t + u == t + v + [u[n]];
    }
  }

  /** The state shown is that of the last event that told one. */
  lemma LastWordOnState(t: seq<Event>, e: Event, u: seq<Event>)
    requires TellsState(e, Open(t)) && QuietOnState(t + [e], u)
    ensures ShownState(t + [e] + u)
         == if e.AppState? then e.state
            else if e.GuideStep? then "Guiding"
            else if e.Paused? then "Paused"
            else if e.StartCalibration? then "Calibrating"
            else if e.LoopingExposures? then "Looping"
            else if e.StarLost? then "LostLock"
            else "Stopped"
  {
    hide ShownState, Open, QuietOnState;
    QuietState(t + [e], u);
    ShownSnoc(t, e);
  }

  /** The distance shown is that of the last event that told one, and 0 if that was the report of guiding. */
  lemma LastWordOnDistance(t: seq<Event>, e: Event, u: seq<Event>)
    requires TellsDist(e, Open(t)) && QuietOnDist(t + [e], u)
    ensures ShownDist(t + [e] + u)
         == if e.GuideStep? then e.avgDist else if e.StarLost? then e.lostAvgDist else 0.0
  {
    hide ShownDist, Open, QuietOnDist;
    QuietDist(t + [e], u);
    ShownSnoc(t, e);
  }

  /** The settling shown is in progress with the last report, or done with the last result. */
  lemma {:induction false} LastWordOnSettling(t: seq<Event>, e: Event, u: seq<Event>, px: real)
    requires e.Settling? || e.SettleDone?
    requires forall i :: 0 <= i < |u| ==> !u[i].Settling? && !u[i].SettleDone?
    ensures var s := ShownSettle(t + [e] + u, px);
            && s.Some? && s.value.done == e.SettleDone?
            && (e.Settling? ==>
                  && s.value.distance == e.distance && s.value.time == e.time && s.value.settleTime == e.settleTime
                  && s.value.settlePx == px && s.value.status == 0)
            && (e.SettleDone? ==> s.value.status == e.status && s.value.error == e.error)
  {
    if u == [] {
      ShownSnoc(t, e);
      assert t + [e] + u == t + [e];
    } else {
      hide ShownSettle;
      var v, x := u[..|u| - 1], u[|u| - 1];
      LastWordOnSettling(t, e, v, px);
      ShownSnoc(t + [e] + v, x);
      assert t + [e] + u == t + [e] + v + [x];
    }
  }

  class Guider {
    const accumRa: Accum
    const accumDec: Accum
    var accumActive: bool
    var settlePx: real
    var stats: GuideStats
    var settle: Option<SettleProgress>
    var appState: string
    var avgDist: real
    var version: string
    var phdSubver: string
    ghost var trace: seq<Event>

    /** The published statistics are the two-pass statistics of the window of all events so far. */
    ghost predicate Counts()
      reads this, accumRa, accumDec
    {
      && accumRa != accumDec && accumRa.Valid() && accumDec.Valid()
      && accumRa.xs == WindowRas(trace) && accumDec.xs == WindowDecs(trace)
      && (accumActive <==> Open(trace))
      && stats == TwoPass(WindowRas(trace), WindowDecs(trace))
    }

    /** And state and distance are what the trace shows. */
    ghost predicate Valid()
      reads this, accumRa, accumDec
    {
      Counts() && appState == ShownState(trace) && avgDist == ShownDist(trace)
    }

    constructor ()
      ensures Valid() && trace == [] && fresh(accumRa) && fresh(accumDec)
    {
      accumRa := new Accum();
      accumDec := new Accum();
      accumActive, settlePx, settle, appState, avgDist := false, 0.0, None, "", 0.0;
      version, phdSubver := "", "";
      stats := GuideStats(0.0, 0.0, 0.0, 0.0);
      trace := [];
    }

    method GetAccumStats() returns (s: GuideStats)
      requires accumRa.Valid() && accumDec.Valid()
      ensures s == TwoPass(accumRa.xs, accumDec.xs)
    {
      s := GuideStats(accumRa.StdevSquared(), accumDec.StdevSquared(), accumRa.peak, accumDec.peak);
    }

    method Restart()
      requires accumRa != accumDec
      modifies this`accumActive, this`stats, accumRa, accumDec
      ensures accumActive && accumRa.Valid() && accumDec.Valid() && accumRa.xs == [] && accumDec.xs == []
      ensures stats == TwoPass([], [])
    {
      accumActive := true;
      accumRa.Reset();
      accumDec.Reset();
      stats := GetAccumStats();
    }

    method Accumulate(ra: real, dec: real)
      requires accumRa != accumDec && accumRa.Valid() && accumDec.Valid()
      modifies this`stats, accumRa, accumDec
      ensures accumRa.Valid() && accumDec.Valid()
      ensures accumRa.xs == old(accumRa.xs) + [ra] && accumDec.xs == old(accumDec.xs) + [dec]
      ensures stats == TwoPass(accumRa.xs, accumDec.xs)
    {
      accumRa.Add(ra);
      accumDec.Add(dec);
      stats := GetAccumStats();
    }

    method HandleEvent(ev: Event)
      requires Valid()
      modifies this, accumRa, accumDec
      ensures Valid() && trace == old(trace) + [ev]
      ensures appState == NextAppState(old(appState), old(accumActive), ev)
      ensures avgDist == NextAvgDist(old(avgDist), old(accumActive), ev)
      ensures settle == NextSettle(old(settle), settlePx, ev) && settlePx == old(settlePx)
      ensures if ev.Version? then version == ev.version && phdSubver == ev.subver
              else version == old(version) && phdSubver == old(phdSubver)
    {
      ShownSnoc(trace, ev);
      HandleState(ev);
      HandleStatistics(ev);
    }

    /** What an event means for the accumulated statistics. */
    method HandleStatistics(ev: Event)
      requires Counts()
      modifies this`accumActive, this`stats, this`trace, accumRa, accumDec
      ensures Counts() && trace == old(trace) + [ev]
    {
      WindowValuesSnoc(trace, ev);
      trace := trace + [ev];
      if ev.StartGuiding? || ev.SettleDone? {
        Restart();
      } else if ev.GuideStep? && accumActive {
        Accumulate(ev.ra, ev.dec);
      } else if ev.SettleBegin? {
        accumActive := false;
      }
    }

    /** What an event means for the rest of the client's state. */
    method HandleState(ev: Event)
      modifies this`appState, this`avgDist, this`settle, this`version, this`phdSubver
      ensures appState == NextAppState(old(appState), accumActive, ev)
      ensures avgDist == NextAvgDist(old(avgDist), accumActive, ev)
      ensures settle == NextSettle(old(settle), settlePx, ev)
      ensures if ev.Version? then version == ev.version && phdSubver == ev.subver
              else version == old(version) && phdSubver == old(phdSubver)
    {
      match ev {
        case AppState(state) =>
          appState := state;
          if IsGuiding(appState) {
            avgDist := 0.0;
          }
        case Version(v, sub) =>
          version, phdSubver := v, sub;
        case GuideStep(_, _, dist) =>
          if accumActive {
            appState := "Guiding";
            avgDist := dist;
          }
        case Settling(distance, time, settleTime) =>
          settle := Some(SettleProgress(false, distance, settlePx, time, settleTime, 0, Some("")));
        case SettleDone(status, error) =>
          settle := Some(SettleProgress(true, 0.0, 0.0, 0.0, 0.0, status, error));
        case Paused =>
          appState := "Paused";
        case StartCalibration =>
          appState := "Calibrating";
        case LoopingExposures =>
          appState := "Looping";
        case LoopingExposuresStopped =>
          appState := "Stopped";
        case GuidingStopped =>
          appState := "Stopped";
        case StarLost(dist) =>
          appState := "LostLock";
          avgDist := dist;
        case _ =>
      }
    }
  }
}
