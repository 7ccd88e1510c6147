/**
 Whole calibration runs: they take an exactly known number of frames, stay in the travel box, count iterations as
 rounded-up quotients, and recover the step vectors of the device from what the camera sees.
 */
module CalibrationLaws {
  import opened Options
  import opened Reals
  import opened StepGuiding

  function Limit(g: Config, d: Direction): int {
    MaxPosition(g.limits, d) - 1
  }

  // ----- arithmetic of strides

  lemma MulMonotone(x: int, y: int, d: int)
    requires x <= y && d > 0
    ensures x * d <= y * d
  {
  }

  lemma DivUnique(a: int, d: int, q: int)
    requires d > 0 && q * d <= a < q * d + d
    ensures a / d == q
  {
    var k := a / d;
    assert k * d <= a < k * d + d;
    if k < q {
      MulMonotone(k + 1, q, d);
    } else if k > q {
      MulMonotone(q + 1, k, d);
    }
  }

  lemma DivLess(a: int, d: int)
    requires d > 0
    ensures (a - d) / d == a / d - 1 && (a - d) % d == a % d
  {
    var q := a / d;
    assert a == q * d + a % d;
    assert (q - 1) * d == q * d - d;
    DivUnique(a - d, d, q - 1);
  }

  /** Taking one stride off a positive distance takes exactly one iteration off. */
  lemma CeilLess(r: int, d: int)
    requires d > 0 && r > 0
    ensures CeilDiv(r - Min(r, d), d) == CeilDiv(r, d) - 1
    ensures CeilDiv(r, d) >= 1
  {
    if r <= d {
      DivUnique(r + d - 1, d, 1);
      DivUnique(d - 1, d, 0);
    } else {
      DivLess(r + d - 1, d);
      DivAtLeast(r + d - 1, d, 1);
    }
  }

  lemma DivAtLeast(a: int, d: int, q: int)
    requires d > 0 && q * d <= a
    ensures a / d >= q
  {
    var k := a / d;
    assert a < k * d + d;
    if k < q {
      MulMonotone(k + 1, q, d);
    }
  }

  lemma CeilZero(d: int)
    requires d > 0
    ensures CeilDiv(0, d) == 0
  {
    DivUnique(d - 1, d, 0);
  }

  // ----- how many frames a run still takes

  function CentringFrames(g: Config, p: Position): int
    requires ValidConfig(g)
  {
    1 + Max(CurrentPosition(p, Left) / g.stepsPerIteration, CurrentPosition(p, Up) / g.stepsPerIteration)
  }

  /** Frames from the first sample at the top left to the end. */
  function FromTopLeft(g: Config): int
    requires ValidConfig(g)
  {
    g.samplesToAverage - 1 + CentringFrames(g, Position(-Limit(g, Left), Limit(g, Up)))
  }

  function FromBottomLeft(g: Config): int
    requires ValidConfig(g)
  {
    g.samplesToAverage - 1 + CeilDiv(SpanY(g.limits), g.stepsPerIteration) + FromTopLeft(g)
  }

  function FromBottomRight(g: Config): int
    requires ValidConfig(g)
  {
    g.samplesToAverage - 1 + CeilDiv(SpanX(g.limits), g.stepsPerIteration) + FromBottomLeft(g)
  }

  /** The number of frames until the calibration is complete. */
  function Remaining(g: Config, p: Position, c: Cal): int
    requires ValidConfig(g)
  {
    match c.phase
    case GotoLowerRight => Max(Iterations(g, p, Down), Iterations(g, p, Right)) + FromBottomRight(g)
    case AverageStarting => FromBottomRight(g) - c.samples
    case GoLeft => Iterations(g, p, Left) + FromBottomLeft(g)
    case AverageCenter => FromBottomLeft(g) - c.samples
    case GoUp => Iterations(g, p, Up) + FromTopLeft(g)
    case AverageEnding => FromTopLeft(g) - c.samples
    case Recenter => CentringFrames(g, p)
    case Complete => 0
    case Cleared => 0
  }

  // ----- the invariant of a run

  ghost predicate Sampling(g: Config, c: Cal) {
    0 < c.samples < g.samplesToAverage
  }

  /** Where the device is in each phase, and how many iterations it has made there. */
  ghost predicate OnTrack(g: Config, p: Position, c: Cal)
    requires ValidConfig(g)
  {
    && InBox(g.limits, p)
    && (c.phase != GotoLowerRight ==> c.start.Some?)
    && StepsLogged(g, c)
    && match c.phase
       case GotoLowerRight => true
       case AverageStarting => Sampling(g, c) && p == Position(Limit(g, Right), -Limit(g, Down))
       case GoLeft =>
         && p.y == -Limit(g, Down)
         && c.iterations + Iterations(g, p, Left) == CeilDiv(SpanX(g.limits), g.stepsPerIteration)
       case AverageCenter =>
         && Sampling(g, c) && p == Position(-Limit(g, Left), -Limit(g, Down))
         && c.iterations == CeilDiv(SpanX(g.limits), g.stepsPerIteration)
       case GoUp =>
         && p.x == -Limit(g, Left)
         && c.iterations + Iterations(g, p, Up) == CeilDiv(SpanY(g.limits), g.stepsPerIteration)
       case AverageEnding =>
         && Sampling(g, c) && p == Position(-Limit(g, Left), Limit(g, Up))
         && c.iterations == CeilDiv(SpanY(g.limits), g.stepsPerIteration)
       case Recenter => Centring(g, p, c)
       case Complete => Centring(g, p, c) && -p.x < g.stepsPerIteration && p.y < g.stepsPerIteration
       case Cleared => false
  }

  /** One logged step for every iteration made so far to the left and up. */
  ghost predicate StepsLogged(g: Config, c: Cal)
    requires ValidConfig(g)
  {
    var left, up := CeilDiv(SpanX(g.limits), g.stepsPerIteration), CeilDiv(SpanY(g.limits), g.stepsPerIteration);
    && |c.raSteps| == (match c.phase
                       case GotoLowerRight | AverageStarting => 0
                       case GoLeft => c.iterations
                       case _ => left)
    && |c.decSteps| == (match c.phase
                        case GotoLowerRight | AverageStarting | GoLeft | AverageCenter => 0
                        case GoUp => c.iterations
                        case _ => up)
  }

  ghost predicate Centring(g: Config, p: Position, c: Cal)
    requires ValidConfig(g)
  {
    && p.x <= 0 <= p.y
    && (-p.x) % g.stepsPerIteration == Limit(g, Left) % g.stepsPerIteration
    && p.y % g.stepsPerIteration == Limit(g, Up) % g.stepsPerIteration
    && c.iterations == CeilDiv(SpanY(g.limits), g.stepsPerIteration)
  }

  ghost predicate GoodFrame(g: Config, p: Position, c: Cal, r: (Position, Cal), due: int)
    requires ValidConfig(g)
  {
    OnTrack(g, r.0, r.1) && Remaining(g, r.0, r.1) == due
  }

  /** A record and the moves that an update yields, taken as the frame they amount to. */
  function Result(g: Config, p: Position, u: (Cal, Moves)): (Position, Cal) {
    (Apply(g, p, u.1), u.0)
  }

  /** Taking whole strides back towards the centre. */
  lemma StrideBack(a: int, d: int)
    requires 0 <= a && d > 0
    ensures if a < d then a / d == 0 else a / d >= 1 && (a - d) / d == a / d - 1 && (a - d) % d == a % d
  {
    if a < d {
      DivUnique(a, d, 0);
    } else {
      DivAtLeast(a, d, 1);
      DivLess(a, d);
    }
  }

  lemma RecenterFrame(g: Config, p: Position, c: Cal)
    requires ValidConfig(g) && InBox(g.limits, p) && c.phase == Recenter && c.start.Some? && Centring(g, p, c)
    requires StepsLogged(g, c)
    ensures GoodFrame(g, p, c, Result(g, p, AtRecenter(g, p, c)), CentringFrames(g, p) - 1)
  {
    StrideBack(-p.x, g.stepsPerIteration);
    StrideBack(p.y, g.stepsPerIteration);
  }

  lemma EndingFrame(g: Config, p: Position, c: Cal, loc: Point)
    requires ValidConfig(g) && c.phase == AverageEnding && c.start.Some?
    requires 0 <= c.samples < g.samplesToAverage && p == Position(-Limit(g, Left), Limit(g, Up))
    requires c.iterations == CeilDiv(SpanY(g.limits), g.stepsPerIteration)
    requires StepsLogged(g, c)
    ensures GoodFrame(g, p, c, Result(g, p, AtAverageEnding(g, p, c, loc)), FromTopLeft(g) - c.samples - 1)
  {
    var d := Sampled(c, loc);
    if d.samples >= g.samplesToAverage {
      var avg := Over(d.sum, d.samples);
      var e := d.(sum := avg, yAxis := Some(Axis(Minus(avg, d.start.value), SpanY(g.limits))), start := Some(avg),
                  phase := Recenter);
      assert AtAverageEnding(g, p, c, loc) == AtRecenter(g, p, e);
      RecenterFrame(g, p, e);
    }
  }

  lemma UpFrame(g: Config, p: Position, c: Cal, loc: Point)
    requires ValidConfig(g) && InBox(g.limits, p) && c.phase == GoUp && c.start.Some? && p.x == -Limit(g, Left)
    requires c.iterations + Iterations(g, p, Up) == CeilDiv(SpanY(g.limits), g.stepsPerIteration)
    requires StepsLogged(g, c)
    ensures GoodFrame(g, p, c, Result(g, p, AtGoUp(g, p, c, loc)), Iterations(g, p, Up) + FromTopLeft(g) - 1)
  {
    if Room(g.limits, p, Up) > 0 {
      CeilLess(Room(g.limits, p, Up), g.stepsPerIteration);
    } else {
      CeilZero(g.stepsPerIteration);
      EndingFrame(g, p, Cleansed(c, AverageEnding), loc);
    }
  }

  lemma CenterFrame(g: Config, p: Position, c: Cal, loc: Point)
    requires ValidConfig(g) && c.phase == AverageCenter && c.start.Some?
    requires 0 <= c.samples < g.samplesToAverage && p == Position(-Limit(g, Left), -Limit(g, Down))
    requires c.iterations == CeilDiv(SpanX(g.limits), g.stepsPerIteration)
    requires StepsLogged(g, c)
    ensures GoodFrame(g, p, c, Result(g, p, AtAverageCenter(g, p, c, loc)), FromBottomLeft(g) - c.samples - 1)
  {
    var d := Sampled(c, loc);
    if d.samples >= g.samplesToAverage {
      var avg := Over(d.sum, d.samples);
      var e := d.(sum := avg, xAxis := Some(Axis(Minus(d.start.value, avg), SpanX(g.limits))),
                  start := Some(avg), iterations := 0, phase := GoUp);
      assert Room(g.limits, p, Up) == SpanY(g.limits);
      UpFrame(g, p, e, loc);
      assert AtAverageCenter(g, p, c, loc) == AtGoUp(g, p, e, loc);
    }
  }

  lemma LeftFrame(g: Config, p: Position, c: Cal, loc: Point)
    requires ValidConfig(g) && InBox(g.limits, p) && c.phase == GoLeft && c.start.Some? && p.y == -Limit(g, Down)
    requires c.iterations + Iterations(g, p, Left) == CeilDiv(SpanX(g.limits), g.stepsPerIteration)
    requires StepsLogged(g, c)
    ensures GoodFrame(g, p, c, Result(g, p, AtGoLeft(g, p, c, loc)), Iterations(g, p, Left) + FromBottomLeft(g) - 1)
  {
    if Room(g.limits, p, Left) > 0 {
      CeilLess(Room(g.limits, p, Left), g.stepsPerIteration);
    } else {
      CeilZero(g.stepsPerIteration);
      CenterFrame(g, p, Cleansed(c, AverageCenter), loc);
    }
  }

  lemma StartingFrame(g: Config, p: Position, c: Cal, loc: Point)
    requires ValidConfig(g) && c.phase == AverageStarting && c.start.Some?
    requires 0 <= c.samples < g.samplesToAverage && p == Position(Limit(g, Right), -Limit(g, Down))
    requires StepsLogged(g, c)
    ensures GoodFrame(g, p, c, Result(g, p, AtAverageStarting(g, p, c, loc)), FromBottomRight(g) - c.samples - 1)
  {
    var d := Sampled(c, loc);
    if d.samples >= g.samplesToAverage {
      var avg := Over(d.sum, d.samples);
      var e := d.(sum := avg, start := Some(avg), iterations := 0, phase := GoLeft);
      assert Room(g.limits, p, Left) == SpanX(g.limits);
      LeftFrame(g, p, e, loc);
      assert AtAverageStarting(g, p, c, loc) == AtGoLeft(g, p, e, loc);
    }
  }

  lemma CeilNatural(r: int, d: int)
    requires d > 0 && r >= 0
    ensures CeilDiv(r, d) >= 0 && (CeilDiv(r, d) == 0 <==> r == 0)
  {
    if r == 0 {
      CeilZero(d);
    } else {
      DivAtLeast(r + d - 1, d, 1);
    }
  }

  lemma GotoFrame(g: Config, p: Position, c: Cal, loc: Point)
    requires ValidConfig(g) && InBox(g.limits, p) && c.phase == GotoLowerRight && c.start.Some?
    requires StepsLogged(g, c)
    ensures GoodFrame(g, p, c, Result(g, p, AtGoto(g, p, c, loc)),
                      Max(Iterations(g, p, Down), Iterations(g, p, Right)) + FromBottomRight(g) - 1)
  {
    var d := g.stepsPerIteration;
    var down, right := Room(g.limits, p, Down), Room(g.limits, p, Right);
    CeilNatural(down, d);
    CeilNatural(right, d);
    if down > 0 {
      CeilLess(down, d);
    }
    if right > 0 {
      CeilLess(right, d);
    }
    if down <= 0 && right <= 0 {
      StartingFrame(g, p, Cleansed(c, AverageStarting), loc);
    }
  }

  /** Every frame keeps the run on track and brings the end exactly one frame nearer. */
  lemma FrameOnTrack(g: Config, p: Position, c: Cal, loc: Point)
    requires ValidConfig(g) && OnTrack(g, p, c)
    ensures GoodFrame(g, p, c, Frame(g, p, c, loc), if c.phase == Complete then 0 else Remaining(g, p, c) - 1)
  {
    match c.phase {
      case GotoLowerRight => GotoFrame(g, p, if c.start.None? then c.(start := Some(loc)) else c, loc);
      case AverageStarting => StartingFrame(g, p, c, loc);
      case GoLeft => LeftFrame(g, p, c, loc);
      case AverageCenter => CenterFrame(g, p, c, loc);
      case GoUp => UpFrame(g, p, c, loc);
      case AverageEnding => EndingFrame(g, p, c, loc);
      case Recenter => RecenterFrame(g, p, c);
      case Complete =>
    }
  }

  // ----- whole runs

  /** n frames; look says where the camera sees the star for a device position at a frame number. */
  function Run(g: Config, p: Position, c: Cal, look: (Position, nat) -> Point, n: nat): (r: (Position, Cal))
    requires ValidConfig(g) && OnTrack(g, p, c)
    ensures OnTrack(g, r.0, r.1)
  {
    if n == 0 then (p, c)
    else
      var before := Run(g, p, c, look, n - 1);
      FrameOnTrack(g, before.0, before.1, look(before.0, n - 1));
      Frame(g, before.0, before.1, look(before.0, n - 1))
  }

  /** The record that BeginCalibration leaves. */
  ghost predicate Begun(c: Cal) {
    c.phase == GotoLowerRight && c.start.None? && c.raSteps == [] && c.decSteps == []
  }

  lemma {:induction false} RunCountsDown(g: Config, p: Position, c: Cal, look: (Position, nat) -> Point, n: nat)
    requires ValidConfig(g) && OnTrack(g, p, c)
    ensures var r := Run(g, p, c, look, n);
            Remaining(g, r.0, r.1) == Max(0, Remaining(g, p, c) - n)
  {
    if n == 0 {
      RemainingNatural(g, p, c);
    } else {
      RunCountsDown(g, p, c, look, n - 1);
      var before := Run(g, p, c, look, n - 1);
      FrameOnTrack(g, before.0, before.1, look(before.0, n - 1));
      RemainingNatural(g, before.0, before.1);
    }
  }

  function Place(p: CalPhase): nat {
    match p
    case Cleared => 0
    case GotoLowerRight => 1
    case AverageStarting => 2
    case GoLeft => 3
    case AverageCenter => 4
    case GoUp => 5
    case AverageEnding => 6
    case Recenter => 7
    case Complete => 8
  }

  lemma FrameAdvances(g: Config, p: Position, c: Cal, loc: Point)
    requires ValidConfig(g) && (c.phase != GotoLowerRight ==> c.start.Some?)
    ensures Place(Frame(g, p, c, loc).1.phase) >= Place(c.phase)
  {
  }

  /** On every run each frame leaves the phase alone or advances it. */
  lemma PhasesAdvance(g: Config, p: Position, c: Cal, look: (Position, nat) -> Point, n: nat)
    requires ValidConfig(g) && OnTrack(g, p, c)
    ensures Place(Run(g, p, c, look, n).1.phase) <= Place(Run(g, p, c, look, n + 1).1.phase)
  {
    var before := Run(g, p, c, look, n);
    FrameAdvances(g, before.0, before.1, look(before.0, n));
  }

  /** Exactly the complete calibrations have no frame left to take. */
  lemma RemainingNatural(g: Config, p: Position, c: Cal)
    requires ValidConfig(g) && OnTrack(g, p, c)
    ensures Remaining(g, p, c) >= 0
    ensures Remaining(g, p, c) == 0 <==> c.phase == Complete
  {
    var d := g.stepsPerIteration;
    CeilNatural(SpanX(g.limits), d);
    CeilNatural(SpanY(g.limits), d);
    CeilNatural(Room(g.limits, p, Left), d);
    CeilNatural(Room(g.limits, p, Up), d);
    CeilNatural(Room(g.limits, p, Down), d);
    CeilNatural(Room(g.limits, p, Right), d);
    DivAtLeast(Limit(g, Left), d, 0);
    if c.phase == Recenter {
      DivAtLeast(-p.x, d, 0);
    }
  }

  /**
   Termination, wherever the device starts and whatever the camera sees: the run is complete after exactly the
   predicted number of frames and not before, and ends with offsets that are the remainders of the travel limits.
   */
  lemma CalibrationTerminates(g: Config, p: Position, c: Cal, look: (Position, nat) -> Point, n: nat)
    requires ValidConfig(g) && InBox(g.limits, p) && Begun(c)
    ensures var r := Run(g, p, c, look, n);
            && (r.1.phase == Complete <==>
                  n >= Max(Iterations(g, p, Down), Iterations(g, p, Right)) + FromBottomRight(g))
            && (r.1.phase == Complete ==>
                  && -r.0.x == Limit(g, Left) % g.stepsPerIteration
                  && r.0.y == Limit(g, Up) % g.stepsPerIteration
                  && |r.1.raSteps| == CeilDiv(SpanX(g.limits), g.stepsPerIteration)
                  && |r.1.decSteps| == CeilDiv(SpanY(g.limits), g.stepsPerIteration))
  {
    RunCountsDown(g, p, c, look, n);
    var r := Run(g, p, c, look, n);
    RemainingNatural(g, r.0, r.1);
    if r.1.phase == Complete {
      CompleteOffsets(g, r.0, r.1);
    }
  }

  lemma CompleteOffsets(g: Config, p: Position, c: Cal)
    requires ValidConfig(g) && OnTrack(g, p, c) && c.phase == Complete
    ensures -p.x == Limit(g, Left) % g.stepsPerIteration && p.y == Limit(g, Up) % g.stepsPerIteration
    ensures |c.raSteps| == CeilDiv(SpanX(g.limits), g.stepsPerIteration)
    ensures |c.decSteps| == CeilDiv(SpanY(g.limits), g.stepsPerIteration)
  {
    SmallRemainder(-p.x, g.stepsPerIteration);
    SmallRemainder(p.y, g.stepsPerIteration);
  }

  lemma SmallRemainder(a: int, d: int)
    requires 0 <= a < d
    ensures a % d == a
  {
  }

  // ----- what the run measures

  /** A device whose every step moves the star by a fixed vector: ex for a step right, ey for a step up. */
  datatype Plant = Plant(origin: Point, ex: Point, ey: Point)

  function Seen(d: Plant, p: Position): Point {
    Plus(d.origin, Plus(Times(p.x as real, d.ex), Times(p.y as real, d.ey)))
  }

  function BottomRight(g: Config): Position {
    Position(Limit(g, Right), -Limit(g, Down))
  }

  function BottomLeft(g: Config): Position {
    Position(-Limit(g, Left), -Limit(g, Down))
  }

  /** The sum of k samples taken at one place, and where the averages taken so far belong. */
  ghost predicate Measured(g: Config, d: Plant, p: Position, c: Cal) {
    && (c.phase in {AverageStarting, AverageCenter, AverageEnding} ==> Summed(d, p, c))
    && (c.phase in {GoLeft, AverageCenter} ==> c.start == Some(Seen(d, BottomRight(g))))
    && (c.phase in {GoUp, AverageEnding} ==> c.start == Some(Seen(d, BottomLeft(g))))
    && (c.phase in {GoUp, AverageEnding, Recenter, Complete} ==> XMeasured(g, d, c))
    && (c.phase in {Recenter, Complete} ==> YMeasured(g, d, c))
  }

  lemma OneMore(k: int, a: Point)
    ensures Plus(Times(k as real, a), a) == Times((k + 1) as real, a)
  {
  }

  lemma AverageOfSame(k: int, a: Point)
    requires k >= 1
    ensures Over(Times(k as real, a), k) == a
  {
    QuotientOfProduct(a.x, k as real);
    QuotientOfProduct(a.y, k as real);
  }

  lemma SpanSeen(d: Plant, p: Position, q: Position)
    ensures q.y == p.y ==> Minus(Seen(d, p), Seen(d, q)) == Times((p.x - q.x) as real, d.ex)
    ensures q.x == p.x ==> Minus(Seen(d, p), Seen(d, q)) == Times((p.y - q.y) as real, d.ey)
  {
    SpanReal(p.x as real, q.x as real, d.ex);
    SpanReal(p.y as real, q.y as real, d.ey);
  }

  lemma SpanReal(a: real, b: real, e: Point)
    ensures Minus(Times(a, e), Times(b, e)) == Times(a - b, e)
  {
  }

  function TopLeft(g: Config): Position {
    Position(-Limit(g, Left), Limit(g, Up))
  }

  ghost predicate Summed(d: Plant, p: Position, c: Cal) {
    c.samples >= 0 && c.sum == Times(c.samples as real, Seen(d, p))
  }

  lemma SampledSummed(d: Plant, p: Position, c: Cal)
    requires Summed(d, p, c)
    ensures Summed(d, p, Sampled(c, Seen(d, p)))
    ensures Over(Sampled(c, Seen(d, p)).sum, c.samples + 1) == Seen(d, p)
  {
    OneMore(c.samples, Seen(d, p));
    AverageOfSame(c.samples + 1, Seen(d, p));
  }

  lemma CleansedSummed(d: Plant, p: Position, c: Cal, phase: CalPhase)
    ensures Summed(d, p, Cleansed(c, phase))
  {
  }

  ghost predicate XMeasured(g: Config, d: Plant, c: Cal) {
    c.xAxis == Some(Axis(Times(SpanX(g.limits) as real, d.ex), SpanX(g.limits)))
  }

  ghost predicate YMeasured(g: Config, d: Plant, c: Cal) {
    c.yAxis == Some(Axis(Times(SpanY(g.limits) as real, d.ey), SpanY(g.limits)))
  }

  lemma EndingMeasures(g: Config, d: Plant, p: Position, c: Cal)
    requires ValidConfig(g) && c.phase == AverageEnding && p == TopLeft(g) && Summed(d, p, c)
    requires c.start == Some(Seen(d, BottomLeft(g))) && XMeasured(g, d, c)
    ensures var r := Result(g, p, AtAverageEnding(g, p, c, Seen(d, p))); Measured(g, d, r.0, r.1)
  {
    SampledSummed(d, p, c);
    SpanSeen(d, p, BottomLeft(g));
  }

  lemma UpMeasures(g: Config, d: Plant, p: Position, c: Cal)
    requires ValidConfig(g) && InBox(g.limits, p) && c.phase == GoUp && p.x == -Limit(g, Left)
    requires c.start == Some(Seen(d, BottomLeft(g))) && XMeasured(g, d, c)
    ensures var r := Result(g, p, AtGoUp(g, p, c, Seen(d, p))); Measured(g, d, r.0, r.1)
  {
    if Room(g.limits, p, Up) <= 0 {
      CleansedSummed(d, p, c, AverageEnding);
      EndingMeasures(g, d, p, Cleansed(c, AverageEnding));
    }
  }

  lemma CenterMeasures(g: Config, d: Plant, p: Position, c: Cal)
    requires ValidConfig(g) && c.phase == AverageCenter && p == BottomLeft(g) && Summed(d, p, c)
    requires c.start == Some(Seen(d, BottomRight(g)))
    ensures var r := Result(g, p, AtAverageCenter(g, p, c, Seen(d, p))); Measured(g, d, r.0, r.1)
  {
    SampledSummed(d, p, c);
    SpanSeen(d, BottomRight(g), p);
    var e := Sampled(c, Seen(d, p));
    if e.samples >= g.samplesToAverage {
      var avg := Over(e.sum, e.samples);
      var f := e.(sum := avg, xAxis := Some(Axis(Minus(e.start.value, avg), SpanX(g.limits))),
                  start := Some(avg), iterations := 0, phase := GoUp);
      UpMeasures(g, d, p, f);
      assert AtAverageCenter(g, p, c, Seen(d, p)) == AtGoUp(g, p, f, Seen(d, p));
    }
  }

  lemma LeftMeasures(g: Config, d: Plant, p: Position, c: Cal)
    requires ValidConfig(g) && InBox(g.limits, p) && c.phase == GoLeft && p.y == -Limit(g, Down)
    requires c.start == Some(Seen(d, BottomRight(g)))
    ensures var r := Result(g, p, AtGoLeft(g, p, c, Seen(d, p))); Measured(g, d, r.0, r.1)
  {
    if Room(g.limits, p, Left) <= 0 {
      CleansedSummed(d, p, c, AverageCenter);
      CenterMeasures(g, d, p, Cleansed(c, AverageCenter));
    }
  }

  lemma StartingMeasures(g: Config, d: Plant, p: Position, c: Cal)
    requires ValidConfig(g) && c.phase == AverageStarting && p == BottomRight(g) && Summed(d, p, c)
    ensures var r := Result(g, p, AtAverageStarting(g, p, c, Seen(d, p))); Measured(g, d, r.0, r.1)
  {
    SampledSummed(d, p, c);
    var e := Sampled(c, Seen(d, p));
    if e.samples >= g.samplesToAverage {
      var avg := Over(e.sum, e.samples);
      var f := e.(sum := avg, start := Some(avg), iterations := 0, phase := GoLeft);
      LeftMeasures(g, d, p, f);
      assert AtAverageStarting(g, p, c, Seen(d, p)) == AtGoLeft(g, p, f, Seen(d, p));
    }
  }

  lemma GotoMeasures(g: Config, d: Plant, p: Position, c: Cal)
    requires ValidConfig(g) && InBox(g.limits, p) && c.phase == GotoLowerRight
    ensures var r := Result(g, p, AtGoto(g, p, c, Seen(d, p))); Measured(g, d, r.0, r.1)
  {
    CeilNatural(Room(g.limits, p, Down), g.stepsPerIteration);
    CeilNatural(Room(g.limits, p, Right), g.stepsPerIteration);
    if Max(Iterations(g, p, Down), Iterations(g, p, Right)) <= 0 {
      CleansedSummed(d, p, c, AverageStarting);
      StartingMeasures(g, d, p, Cleansed(c, AverageStarting));
    }
  }

  lemma FrameMeasures(g: Config, d: Plant, p: Position, c: Cal)
    requires ValidConfig(g) && OnTrack(g, p, c) && Measured(g, d, p, c)
    ensures var r := Frame(g, p, c, Seen(d, p)); Measured(g, d, r.0, r.1)
  {
    match c.phase {
      case GotoLowerRight => GotoMeasures(g, d, p, if c.start.None? then c.(start := Some(Seen(d, p))) else c);
      case AverageStarting => StartingMeasures(g, d, p, c);
      case GoLeft => LeftMeasures(g, d, p, c);
      case AverageCenter => CenterMeasures(g, d, p, c);
      case GoUp => UpMeasures(g, d, p, c);
      case AverageEnding => EndingMeasures(g, d, p, c);
      case Recenter =>
      case Complete =>
    }
  }

  lemma {:induction false} RunMeasures(g: Config, d: Plant, p: Position, c: Cal, n: nat)
    requires ValidConfig(g) && OnTrack(g, p, c) && Measured(g, d, p, c)
    ensures var r := Run(g, p, c, (q: Position, k: nat) => Seen(d, q), n); Measured(g, d, r.0, r.1)
  {
    if n == 0 {
    } else {
      RunMeasures(g, d, p, c, n - 1);
      var before := Run(g, p, c, (q: Position, k: nat) => Seen(d, q), n - 1);
      FrameMeasures(g, d, before.0, before.1);
    }
  }

  /**
   Soundness of the calibration: over a device that moves the star by ex per step right and ey per step up, a
   complete run yields axes whose vector per step is exactly ex and ey, so that the divisors of the rates are the
   steps really travelled between the two averaged places.
   */
  lemma CalibrationRecoversDevice(g: Config, d: Plant, p: Position, c: Cal, n: nat)
    requires ValidConfig(g) && InBox(g.limits, p) && Begun(c)
    requires SpanX(g.limits) > 0 && SpanY(g.limits) > 0
    ensures var r := Run(g, p, c, (q: Position, k: nat) => Seen(d, q), n).1;
            r.phase == Complete ==>
              && r.xAxis.Some? && r.xAxis.value.steps == SpanX(g.limits)
              && Over(r.xAxis.value.vector, r.xAxis.value.steps) == d.ex
              && r.yAxis.Some? && r.yAxis.value.steps == SpanY(g.limits)
              && Over(r.yAxis.value.vector, r.yAxis.value.steps) == d.ey
  {
    RunMeasures(g, d, p, c, n);
    AverageOfSame(SpanX(g.limits), d.ex);
    AverageOfSame(SpanY(g.limits), d.ey);
  }
}
