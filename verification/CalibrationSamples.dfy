/**
 What a calibration run takes from the camera, whatever the camera sees: which frames are averaged at each end of the
 travel, that the axes are differences of those averages, and what every logged step records.
 */
module CalibrationSamples {
  import opened Options
  import opened StepGuiding
  import opened CalibrationLaws

  type Look = (Position, nat) -> Point

  /** The sum of k samples of the device at p, from frame number from on. */
  function SampleSum(look: Look, p: Position, from: nat, k: nat): Point {
    if k == 0 then Point(0.0, 0.0) else Plus(SampleSum(look, p, from, k - 1), look(p, from + k - 1))
  }

  function Mean(g: Config, look: Look, p: Position, from: nat): Point
    requires ValidConfig(g)
  {
    Over(SampleSum(look, p, from, g.samplesToAverage), g.samplesToAverage)
  }

  function LeftStrides(g: Config): nat
    requires ValidConfig(g)
  {
    CeilNatural(SpanX(g.limits), g.stepsPerIteration);
    CeilDiv(SpanX(g.limits), g.stepsPerIteration)
  }

  function UpStrides(g: Config): nat
    requires ValidConfig(g)
  {
    CeilNatural(SpanY(g.limits), g.stepsPerIteration);
    CeilDiv(SpanY(g.limits), g.stepsPerIteration)
  }

  /** The frame of the last sample at the lower right, which is that of the first stride to the left. */
  function LeftAt(g: Config, first: nat): nat requires ValidConfig(g) { first + g.samplesToAverage - 1 }

  /** The frame of the first sample at the lower left. */
  function CenterAt(g: Config, first: nat): nat requires ValidConfig(g) { LeftAt(g, first) + LeftStrides(g) }

  function UpAt(g: Config, first: nat): nat requires ValidConfig(g) { CenterAt(g, first) + g.samplesToAverage - 1 }

  /** The frame of the first sample at the upper left. */
  function EndAt(g: Config, first: nat): nat requires ValidConfig(g) { UpAt(g, first) + UpStrides(g) }

  function AtRight(g: Config, look: Look, first: nat): Point requires ValidConfig(g) {
    Mean(g, look, BottomRight(g), first)
  }

  function AtLeft(g: Config, look: Look, first: nat): Point requires ValidConfig(g) {
    Mean(g, look, BottomLeft(g), CenterAt(g, first))
  }

  function AtTop(g: Config, look: Look, first: nat): Point requires ValidConfig(g) {
    Mean(g, look, TopLeft(g), EndAt(g, first))
  }

  /** Step i of a log is the average at its start less what the camera saw in the frame of that stride. */
  ghost predicate Logged(steps: seq<Point>, n: int, start: Point, look: Look, path: nat -> Position, from: nat) {
    |steps| == n && forall i :: 0 <= i < n ==> steps[i] == Minus(start, look(path(from + i), from + i))
  }

  ghost predicate LeftLogged(g: Config, look: Look, path: nat -> Position, first: nat, c: Cal, n: int)
    requires ValidConfig(g)
  {
    Logged(c.raSteps, n, AtRight(g, look, first), look, path, LeftAt(g, first))
  }

  ghost predicate UpLogged(g: Config, look: Look, path: nat -> Position, first: nat, c: Cal, n: int)
    requires ValidConfig(g)
  {
    Logged(c.decSteps, n, AtLeft(g, look, first), look, path, UpAt(g, first))
  }

  ghost predicate XTaken(g: Config, look: Look, first: nat, c: Cal)
    requires ValidConfig(g)
  {
    c.xAxis == Some(Axis(Minus(AtRight(g, look, first), AtLeft(g, look, first)), SpanX(g.limits)))
  }

  ghost predicate YTaken(g: Config, look: Look, first: nat, c: Cal)
    requires ValidConfig(g)
  {
    c.yAxis == Some(Axis(Minus(AtTop(g, look, first), AtLeft(g, look, first)), SpanY(g.limits)))
  }

  ghost predicate Summed(look: Look, p: Position, from: nat, c: Cal, n: nat) {
    c.samples >= 0 && n == from + c.samples && c.sum == SampleSum(look, p, from, c.samples)
  }

  /** The record before frame n of a run whose first sample is taken in frame first. */
  ghost predicate Taken(g: Config, look: Look, path: nat -> Position, first: nat, p: Position, c: Cal, n: nat)
    requires ValidConfig(g)
  {
    match c.phase
    case GotoLowerRight =>
      n + Max(Iterations(g, p, Down), Iterations(g, p, Right)) == first && c.raSteps == [] && c.decSteps == []
    case AverageStarting => Summed(look, BottomRight(g), first, c, n) && c.raSteps == [] && c.decSteps == []
    case GoLeft =>
      && c.start == Some(AtRight(g, look, first)) && n == LeftAt(g, first) + c.iterations
      && LeftLogged(g, look, path, first, c, c.iterations) && c.decSteps == []
    case AverageCenter =>
      && c.start == Some(AtRight(g, look, first)) && Summed(look, BottomLeft(g), CenterAt(g, first), c, n)
      && LeftLogged(g, look, path, first, c, LeftStrides(g)) && c.decSteps == []
    case GoUp =>
      && c.start == Some(AtLeft(g, look, first)) && n == UpAt(g, first) + c.iterations && XTaken(g, look, first, c)
      && LeftLogged(g, look, path, first, c, LeftStrides(g)) && UpLogged(g, look, path, first, c, c.iterations)
    case AverageEnding =>
      && c.start == Some(AtLeft(g, look, first)) && XTaken(g, look, first, c)
      && Summed(look, TopLeft(g), EndAt(g, first), c, n)
      && LeftLogged(g, look, path, first, c, LeftStrides(g)) && UpLogged(g, look, path, first, c, UpStrides(g))
    case Recenter => AllTaken(g, look, path, first, c)
    case Complete => AllTaken(g, look, path, first, c)
    case Cleared => false
  }

  ghost predicate AllTaken(g: Config, look: Look, path: nat -> Position, first: nat, c: Cal)
    requires ValidConfig(g)
  {
    && XTaken(g, look, first, c) && YTaken(g, look, first, c)
    && LeftLogged(g, look, path, first, c, LeftStrides(g)) && UpLogged(g, look, path, first, c, UpStrides(g))
  }

  ghost predicate TakenNext(g: Config, look: Look, path: nat -> Position, first: nat, r: (Position, Cal), n: nat)
    requires ValidConfig(g)
  {
    Taken(g, look, path, first, r.0, r.1, n + 1)
  }

  lemma LogSnoc(steps: seq<Point>, n: int, start: Point, look: Look, path: nat -> Position, from: nat, at: nat)
    requires Logged(steps, n, start, look, path, from) && at == from + n
    ensures Logged(steps + [Minus(start, look(path(at), at))], n + 1, start, look, path, from)
  {
  }

  lemma EndingTakes(g: Config, look: Look, path: nat -> Position, first: nat, p: Position, c: Cal, n: nat)
    requires ValidConfig(g) && c.phase == AverageEnding && p == TopLeft(g) && 0 <= c.samples < g.samplesToAverage
    requires Taken(g, look, path, first, p, c, n)
    ensures TakenNext(g, look, path, first, Result(g, p, AtAverageEnding(g, p, c, look(p, n))), n)
  {
  }

  lemma UpTakes(g: Config, look: Look, path: nat -> Position, first: nat, p: Position, c: Cal, n: nat)
    requires ValidConfig(g) && InBox(g.limits, p) && c.phase == GoUp && p == path(n) && p.x == -Limit(g, Left)
    requires c.iterations + Iterations(g, p, Up) == UpStrides(g)
    requires Taken(g, look, path, first, p, c, n)
    ensures TakenNext(g, look, path, first, Result(g, p, AtGoUp(g, p, c, look(p, n))), n)
  {
    LogSnoc(c.decSteps, c.iterations, AtLeft(g, look, first), look, path, UpAt(g, first), n);
    if Room(g.limits, p, Up) <= 0 {
      CeilZero(g.stepsPerIteration);
      EndingTakes(g, look, path, first, p, Cleansed(c, AverageEnding), n);
    }
  }

  lemma CenterTakes(g: Config, look: Look, path: nat -> Position, first: nat, p: Position, c: Cal, n: nat)
    requires ValidConfig(g) && c.phase == AverageCenter && p == BottomLeft(g) && p == path(n)
    requires 0 <= c.samples < g.samplesToAverage
    requires Taken(g, look, path, first, p, c, n)
    ensures TakenNext(g, look, path, first, Result(g, p, AtAverageCenter(g, p, c, look(p, n))), n)
  {
    var loc := look(p, n);
    var d := Sampled(c, loc);
    if d.samples >= g.samplesToAverage {
      var avg := Over(d.sum, d.samples);
      var e := d.(sum := avg, xAxis := Some(Axis(Minus(d.start.value, avg), SpanX(g.limits))),
                  start := Some(avg), iterations := 0, phase := GoUp);
      assert Room(g.limits, p, Up) == SpanY(g.limits);
      UpTakes(g, look, path, first, p, e, n);
      assert AtAverageCenter(g, p, c, loc) == AtGoUp(g, p, e, loc);
    }
  }

  lemma LeftTakes(g: Config, look: Look, path: nat -> Position, first: nat, p: Position, c: Cal, n: nat)
    requires ValidConfig(g) && InBox(g.limits, p) && c.phase == GoLeft && p == path(n) && p.y == -Limit(g, Down)
    requires c.iterations + Iterations(g, p, Left) == LeftStrides(g)
    requires Taken(g, look, path, first, p, c, n)
    ensures TakenNext(g, look, path, first, Result(g, p, AtGoLeft(g, p, c, look(p, n))), n)
  {
    LogSnoc(c.raSteps, c.iterations, AtRight(g, look, first), look, path, LeftAt(g, first), n);
    if Room(g.limits, p, Left) <= 0 {
      CeilZero(g.stepsPerIteration);
      CenterTakes(g, look, path, first, p, Cleansed(c, AverageCenter), n);
    }
  }

  lemma StartingTakes(g: Config, look: Look, path: nat -> Position, first: nat, p: Position, c: Cal, n: nat)
    requires ValidConfig(g) && c.phase == AverageStarting && p == BottomRight(g) && p == path(n)
    requires 0 <= c.samples < g.samplesToAverage
    requires Taken(g, look, path, first, p, c, n)
    ensures TakenNext(g, look, path, first, Result(g, p, AtAverageStarting(g, p, c, look(p, n))), n)
  {
    var loc := look(p, n);
    var d := Sampled(c, loc);
    if d.samples >= g.samplesToAverage {
      var avg := Over(d.sum, d.samples);
      var e := d.(sum := avg, start := Some(avg), iterations := 0, phase := GoLeft);
      assert Room(g.limits, p, Left) == SpanX(g.limits);
      LeftTakes(g, look, path, first, p, e, n);
      assert AtAverageStarting(g, p, c, loc) == AtGoLeft(g, p, e, loc);
    }
  }

  lemma GotoTakes(g: Config, look: Look, path: nat -> Position, first: nat, p: Position, c: Cal, n: nat)
    requires ValidConfig(g) && InBox(g.limits, p) && c.phase == GotoLowerRight && p == path(n)
    requires Taken(g, look, path, first, p, c, n)
    ensures TakenNext(g, look, path, first, Result(g, p, AtGoto(g, p, c, look(p, n))), n)
  {
    var d := g.stepsPerIteration;
    var down, right := Room(g.limits, p, Down), Room(g.limits, p, Right);
    CeilNatural(down, d);
    CeilNatural(right, d);
    if down > 0 { CeilLess(down, d); }
    if right > 0 { CeilLess(right, d); }
    if down <= 0 && right <= 0 {
      StartingTakes(g, look, path, first, p, Cleansed(c, AverageStarting), n);
    }
  }

  lemma FrameTakes(g: Config, look: Look, path: nat -> Position, first: nat, p: Position, c: Cal, n: nat)
    requires ValidConfig(g) && OnTrack(g, p, c) && p == path(n)
    requires Taken(g, look, path, first, p, c, n)
    ensures TakenNext(g, look, path, first, Frame(g, p, c, look(p, n)), n)
  {
    match c.phase {
      case GotoLowerRight =>
        GotoTakes(g, look, path, first, p, if c.start.None? then c.(start := Some(look(p, n))) else c, n);
      case AverageStarting => StartingTakes(g, look, path, first, p, c, n);
      case GoLeft => LeftTakes(g, look, path, first, p, c, n);
      case AverageCenter => CenterTakes(g, look, path, first, p, c, n);
      case GoUp => UpTakes(g, look, path, first, p, c, n);
      case AverageEnding => EndingTakes(g, look, path, first, p, c, n);
      case Recenter =>
      case Complete =>
    }
  }

  /** Where the device is before each frame of a run. */
  function Path(g: Config, p: Position, c: Cal, look: Look): nat -> Position
    requires ValidConfig(g) && OnTrack(g, p, c)
  {
    (n: nat) => Run(g, p, c, look, n).0
  }

  lemma {:induction false} RunTakes(g: Config, p: Position, c: Cal, look: Look, first: nat, n: nat)
    requires ValidConfig(g) && OnTrack(g, p, c) && Taken(g, look, Path(g, p, c, look), first, p, c, 0)
    ensures var r := Run(g, p, c, look, n); Taken(g, look, Path(g, p, c, look), first, r.0, r.1, n)
  {
    hide Taken, Frame, OnTrack;
    if n == 0 {
    } else {
      RunTakes(g, p, c, look, first, n - 1);
      var before := Run(g, p, c, look, n - 1);
      FrameTakes(g, look, Path(g, p, c, look), first, before.0, before.1, n - 1);
    }
  }

  /**
   Whatever the camera sees: a complete calibration has the x axis from the mean of all samples at the lower right to
   that at the lower left and the y axis from there to the mean at the upper left; each log has one entry a stride, the
   average at the start of the strides less what the camera saw in the frame of the stride.
   */
  lemma CalibrationTakesMeans(g: Config, p: Position, c: Cal, look: Look, n: nat)
    requires ValidConfig(g) && InBox(g.limits, p) && Begun(c)
    ensures OnTrack(g, p, c)
    ensures var r := Run(g, p, c, look, n).1;
            var down, right := Iterations(g, p, Down), Iterations(g, p, Right);
            down >= 0 && right >= 0 &&
            var first: nat := Max(down, right);
            r.phase == Complete ==>
              && r.xAxis == Some(Axis(Minus(AtRight(g, look, first), AtLeft(g, look, first)), SpanX(g.limits)))
              && r.yAxis == Some(Axis(Minus(AtTop(g, look, first), AtLeft(g, look, first)), SpanY(g.limits)))
              && Logged(r.raSteps, LeftStrides(g), AtRight(g, look, first), look, Path(g, p, c, look), LeftAt(g, first))
              && Logged(r.decSteps, UpStrides(g), AtLeft(g, look, first), look, Path(g, p, c, look), UpAt(g, first))
  {
    CeilNatural(Room(g.limits, p, Down), g.stepsPerIteration);
    CeilNatural(Room(g.limits, p, Right), g.stepsPerIteration);
    RunTakes(g, p, c, look, Max(Iterations(g, p, Down), Iterations(g, p, Right)), n);
  }
}
