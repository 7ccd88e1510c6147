/**
 The bump controller of the adaptive-optics unit. While the unit drifts towards the edge of its travel the secondary
 mount is nudged ("bumped") so that the unit can come back to its centre. The controller keeps a moving average of the
 position, starts and ends bumps with hysteresis, adapts the bump weight and limits every bump it schedules.
 */
module AoBump {
  import opened Options
  import opened Reals
  import opened StepGuiding

  /**
   The settings that stay fixed during a run. maxMove is the size of the search region; cos and sin give the direction
   of the calibrated x axis, mirrored says that the orthogonality error exceeds a right angle.
   */
  datatype Env = Env(
    limits: Limits,
    percent: int,
    maxSteps: real,
    xRate: real,
    yRate: real,
    maxMove: int,
    boost: real,
    cos: real,
    sin: real,
    mirrored: bool)

  ghost predicate ValidEnv(e: Env) {
    && e.limits.up >= 1 && e.limits.down >= 1 && e.limits.left >= 1 && e.limits.right >= 1
    && e.percent > 0 && e.maxMove > 0
    && e.maxSteps > 0.0 && e.xRate > 0.0 && e.yRate > 0.0
    && Square(e.cos) + Square(e.sin) == 1.0
  }

  function IntegerPercent(percentage: int, number: int): int
    requires percentage >= 0 && number >= 0
  {
    percentage * number / 100
  }

  function NearX(e: Env): int requires ValidEnv(e) { IntegerPercent(e.percent, e.limits.left) }
  function FarX(e: Env): int requires ValidEnv(e) { IntegerPercent((100 + e.percent) / 2, e.limits.left) }
  function NearY(e: Env): int requires ValidEnv(e) { IntegerPercent(e.percent, e.limits.up) }
  function FarY(e: Env): int requires ValidEnv(e) { IntegerPercent((100 + e.percent) / 2, e.limits.up) }
  function Tolerance(e: Env): int requires ValidEnv(e) { IntegerPercent(10, 2 * e.limits.up) }

  predicate Outside(e: Env, p: Position)
    requires ValidEnv(e)
  {
    AbsInt(p.x) > NearX(e) || AbsInt(p.y) > NearY(e)
  }

  predicate FarOutside(e: Env, p: Position)
    requires ValidEnv(e)
  {
    AbsInt(p.x) > FarX(e) || AbsInt(p.y) > FarY(e)
  }

  function Sq(a: Point): real {
    Square(a.x) + Square(a.y)
  }

  function HalfMove(e: Env): real {
    (e.maxMove as real) * 0.5
  }

  /** The longest bump of weight one. */
  function MovePx(e: Env): (px: real)
    requires ValidEnv(e)
    ensures px > 0.0
  {
    Positive(MaxReal(e.xRate, e.yRate), e.maxSteps);
    Product(MaxReal(e.xRate, e.yRate), e.maxSteps)
  }

  /** The weight at which a bump is half the search region long. */
  function Cap(e: Env): real
    requires ValidEnv(e)
  {
    HalfMove(e) / MovePx(e)
  }

  lemma CapPositive(e: Env)
    requires ValidEnv(e)
    ensures Cap(e) > 0.0
  {
    Quotient(HalfMove(e), MovePx(e));
    if Cap(e) <= 0.0 {
      Monotone(MovePx(e), Cap(e), 0.0);
      Commutes(Cap(e), MovePx(e));
      Unit(MovePx(e));
    }
  }

  /** std::sqrt by its defining law. */
  ghost predicate IsSqrt(sqrt: real -> real) {
    forall a :: a >= 0.0 ==> sqrt(a) >= 0.0 && Square(sqrt(a)) == a
  }

  // ----- the state and one frame

  datatype State = State(
    avg: Option<Point>,
    forced: bool,
    active: bool,
    weight: real,
    since: int,
    alerted: bool)

  const INITIAL := State(None, false, false, 1.0, 0, false)

  /** What one move meets: the position after the move itself, the options, the secondary mount and the clock. */
  datatype Step = Step(
    pos: Position,
    enabled: bool,
    deduced: bool,
    algoResult: bool,
    secondary: bool,
    connected: bool,
    busy: bool,
    now: int,
    settling: bool,
    limited: bool,
    offset: Point)

  predicate Busy(st: Step) {
    st.secondary && st.busy
  }

  /** A frame on which the state of the bump is reconsidered. */
  predicate Normal(st: Step) {
    st.enabled && !st.deduced && st.algoResult && st.secondary && st.connected
  }

  predicate Averages(st: Step) {
    st.enabled && !st.deduced
  }

  function Averaged(avg: Option<Point>, p: Position): Point {
    var (x, y) := (p.x as real, p.y as real);
    if avg.Some? then Point(avg.value.x + 0.33 * (x - avg.value.x), avg.value.y + 0.33 * (y - avg.value.y))
    else Point(x, y)
  }

  predicate NearCentre(e: Env, avg: Point)
    requires ValidEnv(e)
  {
    Sq(avg) <= (Tolerance(e) * Tolerance(e)) as real
  }

  function Weighed(e: Env, s: State, st: Step): real
    requires ValidEnv(e)
  {
    if Outside(e, st.pos) then
      if s.active && !Busy(st) then
        MinReal(Cap(e), s.weight + if FarOutside(e, st.pos) then 1.0 else 1.0 / 6.0)
      else s.weight
    else if s.weight > 1.0 then MaxReal(1.0, s.weight * 0.5)
    else s.weight
  }

  predicate Starts(e: Env, s: State, st: Step)
    requires ValidEnv(e)
  {
    !s.active && (Outside(e, st.pos) || s.forced)
  }

  predicate Ends(e: Env, s: State, st: Step, avg: Point)
    requires ValidEnv(e)
  {
    (!Outside(e, st.pos) || s.forced) && NearCentre(e, avg)
  }

  predicate Alerts(s: State, st: Step) {
    Normal(st) && s.active && !s.alerted && st.now - s.since > 240
  }

  /** A normal frame, the average having been brought up to date. */
  function Considered(e: Env, s: State, st: Step): State
    requires ValidEnv(e) && s.avg.Some?
  {
    var starts := Starts(e, s, st);
    State(s.avg, false, (s.active || starts) && !Ends(e, s, st, s.avg.value), Weighed(e, s, st),
          if starts then st.now else s.since, if starts then false else s.alerted || Alerts(s, st))
  }

  function After(e: Env, s: State, st: Step): State
    requires ValidEnv(e)
  {
    if !Averages(st) then s
    else
      var s' := s.(avg := Some(Averaged(s.avg, st.pos)));
      if Normal(st) then Considered(e, s', st) else s'
  }

  // ----- the bump itself

  function Scale(k: real, a: Point): Point {
    Point(Product(a.x, k), Product(a.y, k))
  }

  /** Mount to camera coordinates. */
  function Turned(e: Env, a: Point): Point {
    var y := if e.mirrored then -a.y else a.y;
    Point(Product(e.cos, a.x) - Product(e.sin, y), Product(e.sin, a.x) + Product(e.cos, y))
  }

  /** From the average back to the centre, in camera coordinates. */
  function Homeward(e: Env, avg: Point): Point {
    Turned(e, Point(Product(e.xRate, -avg.x), Product(e.yRate, -avg.y)))
  }

  function Used(e: Env, weight: real, settling: bool): real {
    if settling && weight < e.boost then e.boost else weight
  }

  /** The size of a bump of a given weight along one axis. */
  function Pixels(rate: real, maxSteps: real, weight: real): real {
    Product(Product(rate, maxSteps), weight)
  }

  function Along(v: real, pixels: real, len: real): real
    requires len != 0.0
  {
    Product(v, pixels) / len
  }

  function Raw(e: Env, v: Point, len: real, weight: real): Point
    requires len != 0.0
  {
    Point(Along(v.x, Pixels(e.xRate, e.maxSteps, weight), len), Along(v.y, Pixels(e.yRate, e.maxSteps, weight), len))
  }

  lemma SqNonneg(a: Point)
    ensures Sq(a) >= 0.0
  {
    SquareSign(a.x);
    SquareSign(a.y);
  }

  /** No longer than the star offset. */
  function Cut(sqrt: real -> real, b: Point, offset: Point): Point {
    if Sq(b) > Sq(offset) then
      SqNonneg(offset);
      Scale(sqrt(Sq(offset) / Sq(b)), b)
    else b
  }

  /** The gentle bump; None where the source divides a zero vector by its zero length. */
  function Gradual(e: Env, sqrt: real -> real, avg: Point, weight: real, offset: Point): Option<Point> {
    var v := Homeward(e, avg);
    var len := sqrt(Sq(v));
    if len == 0.0 then None else Some(Cut(sqrt, Raw(e, v, len, weight), offset))
  }

  lemma RootPositive(sqrt: real -> real, a: real)
    requires IsSqrt(sqrt) && a > 0.0
    ensures sqrt(a) > 0.0
  {
    SquareSign(sqrt(a));
  }

  /** The bump after the unit ran into its travel limit. */
  function Large(e: Env, sqrt: real -> real, offset: Point): Point
    requires IsSqrt(sqrt)
  {
    var b := Scale(0.70, offset);
    if Sq(b) > Square(HalfMove(e)) then
      SquareSign(HalfMove(e));
      RootPositive(sqrt, Sq(b));
      Scale(HalfMove(e) / sqrt(Sq(b)), b)
    else b
  }

  datatype Scheduled = NoBump | Bump(size: Point) | Undefined

  /** What a frame that left the state s schedules. */
  function Schedule(e: Env, sqrt: real -> real, s: State, st: Step): Scheduled
    requires ValidEnv(e) && IsSqrt(sqrt)
    requires Averages(st) ==> s.avg.Some?
  {
    if !Averages(st) || !s.active || Busy(st) then NoBump
    else if st.limited then Bump(Large(e, sqrt, st.offset))
    else
      match Gradual(e, sqrt, s.avg.value, Used(e, s.weight, st.settling), st.offset)
      case None => Undefined
      case Some(b) => Bump(b)
  }

  class BumpController {
    const e: Env
    var avgOffset: Option<Point>
    var forceStartBump: bool
    var bumpInProgress: bool
    var bumpStepWeight: real
    var bumpStartTime: int
    var bumpTimeoutAlertSent: bool

    ghost function View(): State
      reads this
    {
      State(avgOffset, forceStartBump, bumpInProgress, bumpStepWeight, bumpStartTime, bumpTimeoutAlertSent)
    }

    constructor (e: Env)
      ensures this.e == e && View() == INITIAL
    {
      this.e := e;
      avgOffset, forceStartBump, bumpInProgress := None, false, false;
      bumpStepWeight, bumpStartTime, bumpTimeoutAlertSent := 1.0, 0, false;
    }

    method ForceStartBump()
      modifies this
      ensures View() == Next(e, old(View()), Forced)
    {
      forceStartBump := true;
    }

    method NotifyGuidingStopped()
      modifies this
      ensures View() == Next(e, old(View()), Stopped)
    {
      avgOffset := None;
      forceStartBump := false;
      bumpInProgress := false;
      bumpStepWeight := 1.0;
      bumpTimeoutAlertSent := false;
    }

    method NotifyGuidingResumed()
      modifies this
      ensures View() == Next(e, old(View()), Resumed)
    {
      avgOffset := None;
    }

    method NotifyGuidingDithered()
      modifies this
      ensures View() == Next(e, old(View()), Dithered)
    {
      avgOffset := None;
    }

    method KeepAverage(pos: Position)
      modifies this`avgOffset
      ensures avgOffset == Some(Averaged(old(avgOffset), pos))
    {
      if avgOffset.Some? {
        var alpha := 0.33;
        var a := avgOffset.value;
        a := a.(x := a.x + alpha * (pos.x as real - a.x));
        a := a.(y := a.y + alpha * (pos.y as real - a.y));
        avgOffset := Some(a);
      } else {
        avgOffset := Some(Point(pos.x as real, pos.y as real));
      }
    }

    method AdaptWeight(isOutside: bool, absX: int, absY: int, secondaryIsBusy: bool, ghost st: Step)
      requires ValidEnv(e)
      requires isOutside == Outside(e, st.pos) && absX == AbsInt(st.pos.x) && absY == AbsInt(st.pos.y)
      requires secondaryIsBusy == Busy(st)
      modifies this`bumpStepWeight
      ensures bumpStepWeight == Weighed(e, old(View()), st)
    {
      if isOutside && bumpInProgress && !secondaryIsBusy {
        if absX > FarX(e) || absY > FarY(e) {
          bumpStepWeight := bumpStepWeight + 1.0;
        } else {
          bumpStepWeight := bumpStepWeight + 1.0 / 6.0;
        }
        var movePx := Product(if e.xRate > e.yRate then e.xRate else e.yRate, e.maxSteps);
        assert movePx == MovePx(e);
        var maxMovePx := (e.maxMove as real) * 0.5;
        var maxWeight := maxMovePx / movePx;
        if bumpStepWeight > maxWeight {
          bumpStepWeight := maxWeight;
        }
      }
      if !isOutside && bumpStepWeight > 1.0 {
        bumpStepWeight := bumpStepWeight * 0.5;
        if bumpStepWeight < 1.0 {
          bumpStepWeight := 1.0;
        }
      }
    }

    /** Starts, continues or ends the bump on a normal frame. */
    method ConsiderBump(st: Step) returns (alert: bool)
      requires ValidEnv(e) && Normal(st) && avgOffset.Some?
      modifies this
      ensures View() == Considered(e, old(View()), st)
      ensures alert <==> Alerts(old(View()), st)
    {
      var absX, absY := AbsInt(CurrentPosition(st.pos, Right)), AbsInt(CurrentPosition(st.pos, Up));
      var isOutside := absX > NearX(e) || absY > NearY(e);
      var force := false;
      if forceStartBump {
        force := true;
        forceStartBump := false;
      }
      AdaptWeight(isOutside, absX, absY, st.secondary && st.busy, st);
      alert := false;
      if bumpInProgress && !bumpTimeoutAlertSent {
        if st.now - bumpStartTime > 240 {
          alert := true;
          bumpTimeoutAlertSent := true;
        }
      }
      if (isOutside || force) && !bumpInProgress {
        bumpInProgress := true;
        bumpStartTime := st.now;
        bumpTimeoutAlertSent := false;
      }
      if (!isOutside || force) && bumpInProgress {
        var minDist := Tolerance(e);
        if Product(avgOffset.value.x, avgOffset.value.x) + Product(avgOffset.value.y, avgOffset.value.y)
           <= (minDist * minDist) as real {
          bumpInProgress := false;
        }
      }
    }

    /** After the unit ran into its travel limit: most of the star offset, but no more than half the search region. */
    method LargeBump(sqrt: real -> real, offset: Point) returns (thisBump: Point)
      requires IsSqrt(sqrt)
      ensures thisBump == Large(e, sqrt, offset)
    {
      thisBump := Point(Product(offset.x, 0.70), Product(offset.y, 0.70));
      var maxDist := (e.maxMove as real) * 0.5;
      var d2 := Product(thisBump.x, thisBump.x) + Product(thisBump.y, thisBump.y);
      if d2 > Product(maxDist, maxDist) {
        SquareSign(maxDist);
        RootPositive(sqrt, d2);
        thisBump := Scale(maxDist / sqrt(d2), thisBump);
      }
    }

    /** A small step back towards the centre, no longer than the star offset. */
    method GentleBump(sqrt: real -> real, settling: bool, offset: Point) returns (bump: Option<Point>)
      requires avgOffset.Some?
      ensures bump == Gradual(e, sqrt, avgOffset.value, Used(e, bumpStepWeight, settling), offset)
    {
      var vectorEndpoint := Point(Product(e.xRate, -avgOffset.value.x), Product(e.yRate, -avgOffset.value.y));
      var bumpVec := Turned(e, vectorEndpoint);
      var weight := bumpStepWeight;
      if settling {
        if weight < e.boost {
          weight := e.boost;
        }
      }
      var maxBumpPixelsX := Product(Product(e.xRate, e.maxSteps), weight);
      var maxBumpPixelsY := Product(Product(e.yRate, e.maxSteps), weight);
      var len := sqrt(Product(bumpVec.x, bumpVec.x) + Product(bumpVec.y, bumpVec.y));
      if len == 0.0 {
        return None;
      }
      var xBumpSize := Product(bumpVec.x, maxBumpPixelsX) / len;
      var yBumpSize := Product(bumpVec.y, maxBumpPixelsY) / len;
      var thisBump := Point(xBumpSize, yBumpSize);
      var pixels2 := Product(xBumpSize, xBumpSize) + Product(yBumpSize, yBumpSize);
      var maxDist2 := Product(offset.x, offset.x) + Product(offset.y, offset.y);
      SqNonneg(offset);
      if pixels2 > maxDist2 {
        thisBump := Scale(sqrt(maxDist2 / pixels2), thisBump);
      }
      bump := Some(thisBump);
    }

    /** The part of a move that follows the move of the unit itself. */
    method MoveOffset(sqrt: real -> real, st: Step) returns (bump: Scheduled, alert: bool)
      requires ValidEnv(e) && IsSqrt(sqrt)
      modifies this
      ensures View() == After(e, old(View()), st)
      ensures bump == Schedule(e, sqrt, View(), st)
      ensures alert <==> Alerts(old(View()), st)
    {
      bump, alert := NoBump, false;
      if !st.enabled || st.deduced {
        return;
      }
      KeepAverage(st.pos);
      if st.algoResult && st.secondary && st.connected {
        alert := ConsiderBump(st);
      }
      if bumpInProgress && !(st.secondary && st.busy) {
        if st.limited {
          var thisBump := LargeBump(sqrt, st.offset);
          bump := Bump(thisBump);
        } else {
          var thisBump := GentleBump(sqrt, st.settling, st.offset);
          bump := if thisBump.Some? then Bump(thisBump.value) else Undefined;
        }
      }
    }
  }

  datatype Event = Forced | Stopped | Resumed | Dithered | Move(step: Step)

  function Next(e: Env, s: State, ev: Event): State
    requires ValidEnv(e) || !ev.Move?
  {
    match ev
    case Forced => s.(forced := true)
    case Stopped => State(None, false, false, 1.0, s.since, false)
    case Resumed => s.(avg := None)
    case Dithered => s.(avg := None)
    case Move(st) => After(e, s, st)
  }
}
