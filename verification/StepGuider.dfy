/**
 The adaptive-optics step guider: saturating moves inside the travel box, recentering, and the calibration state
 machine that walks to the lower right corner, left, up, and back towards the centre.
 */
module StepGuiding {
  import opened Options

  datatype Direction = Up | Down | Left | Right | NoDirection

  /** The travel limits; positions stay strictly inside them. */
  datatype Limits = Limits(up: int, down: int, left: int, right: int)

  datatype Position = Position(x: int, y: int)

  datatype StepResult = StepOk | StepLimitReached | StepError

  datatype MoveResult = MoveOk | MoveError | MoveErrorAoLimitReached

  function MaxPosition(m: Limits, d: Direction): int {
    match d case Up => m.up case Down => m.down case Left => m.left case Right => m.right case NoDirection => m.left
  }

  function CurrentPosition(p: Position, d: Direction): int {
    match d case Up => p.y case Down => -p.y case Right => p.x case Left => -p.x case NoDirection => 0
  }

  /** How many more steps the box allows in a direction. */
  function Room(m: Limits, p: Position, d: Direction): int {
    MaxPosition(m, d) - 1 - CurrentPosition(p, d)
  }

  ghost predicate InBox(m: Limits, p: Position) {
    Room(m, p, Up) >= 0 && Room(m, p, Down) >= 0 && Room(m, p, Left) >= 0 && Room(m, p, Right) >= 0
  }

  function Moved(p: Position, d: Direction, steps: int): Position {
    match d
    case Up => Position(p.x, p.y + steps)
    case Down => Position(p.x, p.y - steps)
    case Left => Position(p.x - steps, p.y)
    case Right => Position(p.x + steps, p.y)
    case NoDirection => p
  }

  /** The box in numbers: strictly inside the four limits, and how much room there is to each of them. */
  lemma BoxMeans(m: Limits, p: Position)
    ensures InBox(m, p) <==> -m.left < p.x < m.right && -m.down < p.y < m.up
    ensures Room(m, p, Right) == m.right - 1 - p.x && Room(m, p, Left) == m.left - 1 + p.x
    ensures Room(m, p, Up) == m.up - 1 - p.y && Room(m, p, Down) == m.down - 1 + p.y
  {
  }

  function Min(a: int, b: int): int {
    if a < b then a else b
  }

  function Max(a: int, b: int): int {
    if a > b then a else b
  }

  /** The rounded-up quotient for a non-negative numerator. */
  function CeilDiv(a: int, b: int): int
    requires b > 0
  {
    (a + b - 1) / b
  }

  // ----- calibration

  datatype Point = Point(x: real, y: real)

  function Plus(a: Point, b: Point): Point {
    Point(a.x + b.x, a.y + b.y)
  }

  function Minus(a: Point, b: Point): Point {
    Point(a.x - b.x, a.y - b.y)
  }

  function Times(k: real, a: Point): Point {
    Point(k * a.x, k * a.y)
  }

  function Over(a: Point, n: int): Point
    requires n != 0
  {
    Point(a.x / (n as real), a.y / (n as real))
  }

  datatype CalPhase =
    | Cleared | GotoLowerRight | AverageStarting | GoLeft | AverageCenter | GoUp | AverageEnding | Recenter | Complete

  /** A calibrated axis: its angle is the direction of vector, its rate the length of vector over steps. */
  datatype Axis = Axis(vector: Point, steps: int)

  datatype Cal = Cal(
    phase: CalPhase,
    iterations: int,
    start: Option<Point>,
    samples: int,
    sum: Point,
    xAxis: Option<Axis>,
    yAxis: Option<Axis>,
    raSteps: seq<Point>,
    decSteps: seq<Point>)

  datatype Config = Config(limits: Limits, stepsPerIteration: int, samplesToAverage: int)

  ghost predicate ValidConfig(g: Config) {
    && g.limits.up >= 1 && g.limits.down >= 1 && g.limits.left >= 1 && g.limits.right >= 1
    && g.stepsPerIteration >= 1 && g.samplesToAverage >= 1
  }

  datatype Moves = Moves(up: bool, down: bool, right: bool, left: bool)

  const STAY := Moves(false, false, false, false)

  function Iterations(g: Config, p: Position, d: Direction): int
    requires g.stepsPerIteration >= 1
  {
    CeilDiv(Room(g.limits, p, d), g.stepsPerIteration)
  }

  /** The span of an axis, which the source divides distances by. */
  function SpanX(m: Limits): int {
    (m.left - 1) + (m.right - 1)
  }

  function SpanY(m: Limits): int {
    (m.up - 1) + (m.down - 1)
  }

  function Sampled(c: Cal, loc: Point): Cal {
    c.(samples := c.samples + 1, sum := Plus(c.sum, loc))
  }

  function Cleansed(c: Cal, phase: CalPhase): Cal {
    c.(phase := phase, samples := 0, sum := Point(0.0, 0.0))
  }

  // The states in the order in which the source falls through them.

  function AtRecenter(g: Config, p: Position, c: Cal): (Cal, Moves) {
    var moves := Moves(false, CurrentPosition(p, Up) >= g.stepsPerIteration,
                       CurrentPosition(p, Left) >= g.stepsPerIteration, false);
    if moves.right || moves.down then (c, moves) else (c.(phase := Complete), STAY)
  }

  function AtAverageEnding(g: Config, p: Position, c: Cal, loc: Point): (Cal, Moves)
    requires g.samplesToAverage >= 1 && c.start.Some?
  {
    var d := Sampled(c, loc);
    if d.samples < g.samplesToAverage then (d, STAY)
    else
      var avg := Over(d.sum, d.samples);
      AtRecenter(g, p, d.(sum := avg, yAxis := Some(Axis(Minus(avg, d.start.value), SpanY(g.limits))),
                          start := Some(avg), phase := Recenter))
  }

  function AtGoUp(g: Config, p: Position, c: Cal, loc: Point): (Cal, Moves)
    requires g.samplesToAverage >= 1 && c.start.Some?
  {
    if Room(g.limits, p, Up) > 0 then
      (c.(iterations := c.iterations + 1, decSteps := c.decSteps + [Minus(c.start.value, loc)]), STAY.(up := true))
    else AtAverageEnding(g, p, Cleansed(c, AverageEnding), loc)
  }

  function AtAverageCenter(g: Config, p: Position, c: Cal, loc: Point): (Cal, Moves)
    requires g.samplesToAverage >= 1 && c.start.Some?
  {
    var d := Sampled(c, loc);
    if d.samples < g.samplesToAverage then (d, STAY)
    else
      var avg := Over(d.sum, d.samples);
      AtGoUp(g, p, d.(sum := avg, xAxis := Some(Axis(Minus(d.start.value, avg), SpanX(g.limits))),
                      start := Some(avg), iterations := 0, phase := GoUp), loc)
  }

  function AtGoLeft(g: Config, p: Position, c: Cal, loc: Point): (Cal, Moves)
    requires g.samplesToAverage >= 1 && c.start.Some?
  {
    if Room(g.limits, p, Left) > 0 then
      (c.(iterations := c.iterations + 1, raSteps := c.raSteps + [Minus(c.start.value, loc)]), STAY.(left := true))
    else AtAverageCenter(g, p, Cleansed(c, AverageCenter), loc)
  }

  function AtAverageStarting(g: Config, p: Position, c: Cal, loc: Point): (Cal, Moves)
    requires g.samplesToAverage >= 1
  {
    var d := Sampled(c, loc);
    if d.samples < g.samplesToAverage then (d, STAY)
    else
      var avg := Over(d.sum, d.samples);
      AtGoLeft(g, p, d.(sum := avg, start := Some(avg), iterations := 0, phase := GoLeft), loc)
  }

  function AtGoto(g: Config, p: Position, c: Cal, loc: Point): (Cal, Moves)
    requires ValidConfig(g)
  {
    if Max(Iterations(g, p, Down), Iterations(g, p, Right)) > 0 then
      (c, Moves(false, Room(g.limits, p, Down) > 0, Room(g.limits, p, Right) > 0, false))
    else AtAverageStarting(g, p, Cleansed(c, AverageStarting), loc)
  }

  /** One calibration update at a camera location: the next record and the moves to schedule. */
  function Update(g: Config, p: Position, c: Cal, loc: Point): (Cal, Moves)
    requires ValidConfig(g)
  {
    var d := if c.start.None? then c.(start := Some(loc)) else c;
    match d.phase
    case GotoLowerRight => AtGoto(g, p, d, loc)
    case AverageStarting => AtAverageStarting(g, p, d, loc)
    case GoLeft => AtGoLeft(g, p, d, loc)
    case AverageCenter => AtAverageCenter(g, p, d, loc)
    case GoUp => AtGoUp(g, p, d, loc)
    case AverageEnding => AtAverageEnding(g, p, d, loc)
    case Recenter => AtRecenter(g, p, d)
    case Complete => (d, STAY)
    case Cleared => (d, STAY)
  }

  function Stride(g: Config, p: Position, d: Direction): int {
    Min(Room(g.limits, p, d), g.stepsPerIteration)
  }

  /** The position after the scheduled moves when every step succeeds. */
  function Apply(g: Config, p: Position, v: Moves): Position {
    Position(p.x + (if v.right then Stride(g, p, Right) else 0) - (if v.left then Stride(g, p, Left) else 0),
             p.y + (if v.up then Stride(g, p, Up) else 0) - (if v.down then Stride(g, p, Down) else 0))
  }

  // ----- moves that can fail

  /** What the device says to a step, and whether it recenters itself when that is that its limit is reached. */
  datatype Answer = Answer(step: StepResult, centered: bool)

  /** Position and result after one scheduled move, which is cut short at the travel limit. */
  function MoveOnce(m: Limits, p: Position, d: Direction, steps: int, enabled: bool, a: Answer): (Position, MoveResult)
  {
    var k := Min(steps, Room(m, p, d));
    if !enabled then (p, MoveError)
    else if k <= 0 || a.step.StepOk? then (Moved(p, d, k), if k == steps then MoveOk else MoveError)
    else if a.step.StepError? then (p, MoveError)
    else (if a.centered then Position(0, 0) else p, MoveErrorAoLimitReached)
  }

  /** Where the moves of a frame leave the device, how many of them failed, and whether one ran into its limit. */
  datatype Done = Done(pos: Position, errors: nat, limit: bool)

  /** One more of the moves that were scheduled at a position. */
  function Then(g: Config, from: Position, done: Done, wanted: bool, d: Direction, enabled: bool, a: Answer): Done {
    if !wanted then done
    else
      var (p, r) := MoveOnce(g.limits, done.pos, d, Stride(g, from, d), enabled, a);
      Done(p, done.errors + (if r.MoveOk? then 0 else 1), done.limit || r.MoveErrorAoLimitReached?)
  }

  function Perform(g: Config, p: Position, v: Moves, enabled: bool, answers: Direction -> Answer): Done {
    var up := Then(g, p, Done(p, 0, false), v.up, Up, enabled, answers(Up));
    var down := Then(g, p, up, v.down, Down, enabled, answers(Down));
    var right := Then(g, p, down, v.right, Right, enabled, answers(Right));
    Then(g, p, right, v.left, Left, enabled, answers(Left))
  }

  // ----- the device

  class StepGuider {
    const g: Config
    var pos: Position
    var guidingEnabled: bool
    var cal: Cal

    ghost predicate Valid()
      reads this
    {
      ValidConfig(g) && InBox(g.limits, pos)
    }

    constructor (g: Config)
      requires ValidConfig(g)
      ensures Valid() && this.g == g && pos == Position(0, 0) && guidingEnabled && cal.phase == Cleared
    {
      this.g, pos, guidingEnabled := g, Position(0, 0), true;
      cal := Cal(Cleared, 0, None, 0, Point(0.0, 0.0), None, None, [], []);
    }

    method WouldHitLimit(d: Direction, steps: int) returns (hit: bool)
      requires Valid()
      ensures hit <==> steps > Room(g.limits, pos, d)
    {
      hit := CurrentPosition(pos, d) + steps >= MaxPosition(g.limits, d);
    }

    /** Asks the device for the steps and keeps track of the position, unless the device reports a failure. */
    method TakeSteps(d: Direction, steps: int, step: StepResult, centered: bool) returns (result: MoveResult)
      requires Valid() && d != NoDirection && 0 < steps <= Room(g.limits, pos, d)
      modifies this`pos
      ensures Valid()
      ensures pos == match step case StepOk => Moved(old(pos), d, steps)
                                case StepError => old(pos)
                                case StepLimitReached => if centered then Position(0, 0) else old(pos)
      ensures result == match step case StepOk => MoveOk case StepError => MoveError
                                   case StepLimitReached => MoveErrorAoLimitReached
    {
      var yDirection, xDirection := 0, 0;
      match d {
        case Up => yDirection := 1;
        case Down => yDirection := -1;
        case Right => xDirection := 1;
        case Left => xDirection := -1;
      }
      if step != StepOk {
        result := MoveError;
        if step == StepLimitReached {
          if centered {
            pos := Position(0, 0);
          }
          result := MoveErrorAoLimitReached;
        }
      } else {
        pos := Position(pos.x + xDirection * steps, pos.y + yDirection * steps);
        result := MoveOk;
      }
    }

    /**
     Moves along one axis, cut short at the travel limit. step is the device's answer, centered whether the device
     recenters itself when it reports that it ran into its own limit.
     */
    method MoveAxis(d: Direction, requested: int, manual: bool, step: StepResult, centered: bool)
      returns (result: MoveResult, amountMoved: int, limited: bool)
      requires Valid() && requested >= 0
      modifies this`pos
      ensures Valid()
      ensures limited <==> Attempts(requested, d, manual) && requested > Room(g.limits, old(pos), d)
      ensures result.MoveOk? <==>
                && (guidingEnabled || manual)
                && (requested == 0 || (d != NoDirection && (step.StepOk? || Room(g.limits, old(pos), d) == 0)))
      ensures result.MoveOk? && requested == 0 ==> amountMoved == 0 && pos == old(pos)
      ensures result.MoveOk? && requested > 0 ==>
                && amountMoved == Min(requested, Room(g.limits, old(pos), d))
                && pos == Moved(old(pos), d, amountMoved)
      ensures !result.MoveOk? ==> amountMoved == 0
      ensures result.MoveError? ==> pos == old(pos)
      ensures result.MoveErrorAoLimitReached? <==>
                Attempts(requested, d, manual) && Room(g.limits, old(pos), d) > 0 && step.StepLimitReached?
      ensures result.MoveErrorAoLimitReached? ==> pos == if centered then Position(0, 0) else old(pos)
    {
      result, limited := MoveOk, false;
      var steps := requested;
      if !guidingEnabled && !manual {
        return MoveError, 0, limited;
      }
      if steps > 0 {
        if d == NoDirection {
          return MoveError, 0, limited;
        }
        var hit := WouldHitLimit(d, steps);
        if hit {
          steps := MaxPosition(g.limits, d) - 1 - CurrentPosition(pos, d);
          limited := true;
        }
        if steps > 0 {
          result := TakeSteps(d, steps, step, centered);
          if result != MoveOk {
            return result, 0, limited;
          }
        }
      }
      amountMoved := steps;
    }

    predicate Attempts(requested: int, d: Direction, manual: bool)
      reads this
    {
      (guidingEnabled || manual) && requested > 0 && d != NoDirection
    }

    /** Back to the centre, one axis after the other; an error on the first leaves the second alone. */
    method MoveToCenter(stepY: StepResult, stepX: StepResult, centered: bool) returns (bError: bool)
      requires Valid()
      modifies this`pos
      ensures Valid()
      ensures !bError ==> pos == Position(0, 0)
      ensures bError <==> || (old(pos).y != 0 && !(guidingEnabled && stepY.StepOk?))
                          || (old(pos).x != 0 && !(guidingEnabled && stepX.StepOk?))
    {
      var y := CurrentPosition(pos, Up);
      if y != 0 {
        var r, moved, limited := MoveAxis(if y > 0 then Down else Up, if y > 0 then y else -y, false, stepY, centered);
        if moved != (if y > 0 then y else -y) {
          return true;
        }
      }
      var x := CurrentPosition(pos, Left);
      if x != 0 {
        var r, moved, limited := MoveAxis(if x > 0 then Right else Left, if x > 0 then x else -x,
                                          false, stepX, centered);
        if moved != (if x > 0 then x else -x) {
          return true;
        }
      }
      bError := false;
    }

    method BeginCalibration(connected: bool, valid: bool) returns (bError: bool)
      modifies this`cal
      ensures bError <==> !connected || !valid
      ensures bError ==> cal == old(cal)
      ensures !bError ==> cal == old(cal).(phase := GotoLowerRight, start := None, raSteps := [], decSteps := [])
    {
      if !connected || !valid {
        return true;
      }
      cal := cal.(phase := Cleared);
      cal := cal.(phase := GotoLowerRight);
      cal := cal.(start := None);
      cal := cal.(raSteps := [], decSteps := []);
      bError := false;
    }

    /** One update. The source's assertions on the remaining steps are the Room facts of Valid(). */
    method UpdateCalibrationState(loc: Point, errorCount: int) returns (bError: bool, moves: Moves)
      requires Valid() && cal.phase != Cleared
      requires cal.start.None? ==> cal.phase == GotoLowerRight
      modifies this`cal
      ensures bError <==> errorCount > 12
      ensures bError ==> cal == old(cal).(phase := Cleared) && moves == STAY
      ensures !bError ==> (cal, moves) == Update(g, pos, old(cal), loc)
    {
      moves := STAY;
      if errorCount > 12 {
        cal := cal.(phase := Cleared);
        return true, moves;
      }
      bError := false;
      if cal.start == None {
        cal := cal.(start := Some(loc));
      }
      assert Room(g.limits, pos, Up) >= 0 && Room(g.limits, pos, Down) >= 0;
      assert Room(g.limits, pos, Right) >= 0 && Room(g.limits, pos, Left) >= 0;
      if cal.phase == GotoLowerRight {
        if Max(Iterations(g, pos, Down), Iterations(g, pos, Right)) > 0 {
          moves := moves.(down := Room(g.limits, pos, Down) > 0);
          moves := moves.(right := Room(g.limits, pos, Right) > 0);
          return;
        }
        cal := cal.(samples := 0, sum := Point(0.0, 0.0));
        cal := cal.(phase := AverageStarting);
      }
      if cal.phase == AverageStarting {
        cal := cal.(samples := cal.samples + 1, sum := Plus(cal.sum, loc));
        if cal.samples < g.samplesToAverage {
          return;
        }
        cal := cal.(sum := Over(cal.sum, cal.samples));
        cal := cal.(start := Some(cal.sum));
        cal := cal.(iterations := 0);
        cal := cal.(phase := GoLeft);
      }
      if cal.phase == GoLeft {
        if Room(g.limits, pos, Left) > 0 {
          cal := cal.(iterations := cal.iterations + 1);
          moves := moves.(left := true);
          cal := cal.(raSteps := cal.raSteps + [Minus(cal.start.value, loc)]);
          return;
        }
        cal := cal.(samples := 0, sum := Point(0.0, 0.0));
        cal := cal.(phase := AverageCenter);
      }
      moves := FinishCalibrationState(loc);
    }

    /** The second half of the update: from the left end to the end of the run. */
    method FinishCalibrationState(loc: Point) returns (moves: Moves)
      requires Valid() && cal.start.Some?
      requires cal.phase in {AverageCenter, GoUp, AverageEnding, Recenter, Complete}
      modifies this`cal
      ensures (cal, moves) == Update(g, pos, old(cal), loc)
    {
      moves := STAY;
      if cal.phase == AverageCenter {
        cal := cal.(samples := cal.samples + 1, sum := Plus(cal.sum, loc));
        if cal.samples < g.samplesToAverage {
          return;
        }
        cal := cal.(sum := Over(cal.sum, cal.samples));
        cal := cal.(xAxis := Some(Axis(Minus(cal.start.value, cal.sum), (g.limits.left - 1) + (g.limits.right - 1))));
        cal := cal.(start := Some(cal.sum));
        cal := cal.(iterations := 0);
        cal := cal.(phase := GoUp);
      }
      if cal.phase == GoUp {
        if Room(g.limits, pos, Up) > 0 {
          cal := cal.(iterations := cal.iterations + 1);
          moves := moves.(up := true);
          cal := cal.(decSteps := cal.decSteps + [Minus(cal.start.value, loc)]);
          return;
        }
        cal := cal.(samples := 0, sum := Point(0.0, 0.0));
        cal := cal.(phase := AverageEnding);
      }
      if cal.phase == AverageEnding {
        cal := cal.(samples := cal.samples + 1, sum := Plus(cal.sum, loc));
        if cal.samples < g.samplesToAverage {
          return;
        }
        cal := cal.(sum := Over(cal.sum, cal.samples));
        cal := cal.(yAxis := Some(Axis(Minus(cal.sum, cal.start.value), (g.limits.up - 1) + (g.limits.down - 1))));
        cal := cal.(start := Some(cal.sum));
        cal := cal.(phase := Recenter);
      }
      if cal.phase == Recenter {
        moves := moves.(right := CurrentPosition(pos, Left) >= g.stepsPerIteration);
        moves := moves.(down := CurrentPosition(pos, Up) >= g.stepsPerIteration);
        if moves.right || moves.down {
          return;
        }
        cal := cal.(phase := Complete);
      }
    }

    /** One scheduled move, which also counts as failed when it was cut short. */
    method ScheduledMove(d: Direction, steps: int, a: Answer) returns (result: MoveResult)
      requires Valid() && d != NoDirection && steps >= 0
      modifies this`pos
      ensures Valid()
      ensures (pos, result) == MoveOnce(g.limits, old(pos), d, steps, guidingEnabled, a)
    {
      var amountMoved, limited;
      result, amountMoved, limited := MoveAxis(d, steps, false, a.step, a.centered);
      if amountMoved != steps && result == MoveOk {
        result := MoveError;
      }
    }

    /** The moves of an update, sized from the room there was when they were scheduled. */
    method PerformMoves(moves: Moves, answers: Direction -> Answer) returns (ghost done: Done)
      requires Valid()
      modifies this`pos
      ensures Valid()
      ensures done == Perform(g, old(pos), moves, guidingEnabled, answers) && pos == done.pos
    {
      ghost var from := pos;
      var up, down := Stride(g, pos, Up), Stride(g, pos, Down);
      var right, left := Stride(g, pos, Right), Stride(g, pos, Left);
      var r;
      done := Done(pos, 0, false);
      if moves.up {
        r := ScheduledMove(Up, up, answers(Up));
        done := Then(g, from, done, true, Up, guidingEnabled, answers(Up));
      }
      if moves.down {
        r := ScheduledMove(Down, down, answers(Down));
        done := Then(g, from, done, true, Down, guidingEnabled, answers(Down));
      }
      if moves.right {
        r := ScheduledMove(Right, right, answers(Right));
        done := Then(g, from, done, true, Right, guidingEnabled, answers(Right));
      }
      if moves.left {
        r := ScheduledMove(Left, left, answers(Left));
        done := Then(g, from, done, true, Left, guidingEnabled, answers(Left));
      }
    }

    /** An update and, unless it gives up, the moves it scheduled, whatever the device answers. */
    method CalibrationFrame(loc: Point, errorCount: int, answers: Direction -> Answer)
      returns (bError: bool, ghost done: Done)
      requires Valid() && cal.phase != Cleared
      requires cal.start.None? ==> cal.phase == GotoLowerRight
      modifies this`cal, this`pos
      ensures Valid() && (bError <==> errorCount > 12)
      ensures bError ==> cal == old(cal).(phase := Cleared) && pos == old(pos) && done == Done(pos, 0, false)
      ensures !bError ==>
                var u := Update(g, old(pos), old(cal), loc);
                && cal == u.0 && pos == done.pos
                && done == Perform(g, old(pos), u.1, guidingEnabled, answers)
    {
      var moves;
      bError, moves := UpdateCalibrationState(loc, errorCount);
      done := PerformMoves(moves, answers);
    }
  }

  function Frame(g: Config, p: Position, c: Cal, loc: Point): (Position, Cal)
    requires ValidConfig(g) && (c.start.None? ==> c.phase == GotoLowerRight)
  {
    var u := Update(g, p, c, loc);
    (Apply(g, p, u.1), u.0)
  }

  /** No update schedules two opposite moves: the source asserts it before each of them. */
  lemma MovesExclusive(g: Config, p: Position, c: Cal, loc: Point)
    requires ValidConfig(g) && (c.start.None? ==> c.phase == GotoLowerRight)
    ensures var v := Update(g, p, c, loc).1; !(v.up && v.down) && !(v.left && v.right)
  {
  }
}
