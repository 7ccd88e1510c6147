/**
 What runs of the bump controller reach from its initial state: bumps that never end, bumps of undefined size, and
 bumps longer than half of the search region. Each comes with the run that shows it and with the exact condition.
 */
module BumpReach {
  import opened Options
  import opened Reals
  import opened StepGuiding
  import opened AoBump
  import opened BumpLaws

  ghost predicate InTravel(e: Env, events: seq<Event>) {
    forall i :: 0 <= i < |events| ==> Travels(e, events[i])
  }

  /** The travel limits leave the unit nowhere to go. */
  predicate CannotMove(e: Env) {
    e.limits == Limits(1, 1, 1, 1)
  }

  /** A normal frame with the unit at p and the secondary mount free. */
  function FrameAt(p: Position): Step {
    Step(p, true, false, true, true, true, false, 0, false, false, Point(0.0, 0.0))
  }

  function At(p: Position): Point {
    Point(p.x as real, p.y as real)
  }

  lemma RunSnoc(e: Env, s: State, events: seq<Event>, ev: Event)
    requires ValidEnv(e)
    ensures RunFrom(e, s, events + [ev]) == Next(e, RunFrom(e, s, events), ev)
  {
    assert (events + [ev])[..|events|] == events;
  }

  // ----- a run that leaves a bump in progress

  /** A place in the box, on one of its axes, where the average is too far out for a bump to end. */
  lemma SomewhereOut(e: Env) returns (p: Position)
    requires ValidEnv(e) && !CannotMove(e)
    ensures InBox(e.limits, p) && (p.x == 0 || p.y == 0) && p != Position(0, 0)
    ensures !NearCentre(e, At(p))
  {
    if e.limits.up >= 2 {
      p := Position(0, e.limits.up - 1);
      var (t, y) := (Tolerance(e), e.limits.up - 1);
      assert 0 <= t < y;
      IntSquares(t, y);
    } else if e.limits.right >= 2 {
      p := Position(1, 0);
    } else if e.limits.left >= 2 {
      p := Position(-1, 0);
    } else {
      p := Position(0, -1);
    }
  }

  lemma IntSquares(a: int, b: int)
    requires 0 <= a < b
    ensures a * a < b * b
    ensures (b * b) as real == Square(b as real)
  {
    assert (b * b) as real == (b as real) * (b as real);
  }

  /** A bump asked for while the unit is out there is in progress after the next normal frame. */
  lemma ForcedFrame(e: Env, st: Step)
    requires ValidEnv(e) && Normal(st) && !NearCentre(e, At(st.pos))
    ensures Next(e, RunFrom(e, INITIAL, [Forced]), Move(st)) == State(Some(At(st.pos)), false, true, 1.0, st.now, false)
  {
    assert [Forced] == [] + [Forced];
    RunSnoc(e, INITIAL, [], Forced);
  }

  function Started(p: Position): seq<Event> {
    [Forced] + [Move(FrameAt(p))]
  }

  lemma StartedReaches(e: Env, p: Position)
    requires ValidEnv(e) && InBox(e.limits, p) && !NearCentre(e, At(p))
    ensures InTravel(e, Started(p))
    ensures RunFrom(e, INITIAL, Started(p)) == State(Some(At(p)), false, true, 1.0, 0, false)
  {
    ForcedFrame(e, FrameAt(p));
    RunSnoc(e, INITIAL, [Forced], Move(FrameAt(p)));
  }

  /** What is scheduled when the frame st follows a run. */
  ghost function LastBump(e: Env, sqrt: real -> real, events: seq<Event>, st: Step): Scheduled
    requires ValidEnv(e) && IsSqrt(sqrt)
  {
    Schedule(e, sqrt, Next(e, RunFrom(e, INITIAL, events), Move(st)), st)
  }

  /** No bump in progress, and the average, if there is one, at the centre. */
  predicate Stuck(s: State) {
    !s.active && Centred(s.avg)
  }

  predicate Centred(avg: Option<Point>) {
    avg.Some? ==> Sq(avg.value) == 0.0
  }

  lemma NoLengthIsCentre(e: Env, a: Point)
    requires ValidEnv(e) && Sq(a) == 0.0
    ensures NearCentre(e, a)
  {
    TolerancePositive(e);
  }

  lemma QuietFrame(e: Env, s: State, st: Step, a: Point)
    requires ValidEnv(e) && Stuck(s) && !Outside(e, st.pos)
    requires a == Averaged(s.avg, st.pos) && NearCentre(e, a) && Sq(a) == 0.0
    ensures Stuck(After(e, s, st))
  {
  }

  lemma StuckMove(e: Env, s: State, st: Step)
    requires ValidEnv(e) && st.pos == Position(0, 0) && Stuck(s)
    ensures Stuck(After(e, s, st))
  {
    var a := AverageShrinks(s.avg, st.pos);
    NoLengthIsCentre(e, a);
    NotOutside(e, st.pos);
    QuietFrame(e, s, st, a);
  }

  lemma OnlyPlace(e: Env, p: Position)
    requires CannotMove(e) && InBox(e.limits, p)
    ensures p == Position(0, 0)
  {
    assert Room(e.limits, p, Up) >= 0 && Room(e.limits, p, Down) >= 0;
    assert Room(e.limits, p, Left) >= 0 && Room(e.limits, p, Right) >= 0;
  }

  lemma StuckInBox(e: Env, s: State, st: Step)
    requires ValidEnv(e) && CannotMove(e) && InBox(e.limits, st.pos) && Stuck(s)
    ensures Stuck(After(e, s, st))
  {
    OnlyPlace(e, st.pos);
    StuckMove(e, s, st);
  }

  lemma StuckStep(e: Env, s: State, ev: Event)
    requires ValidEnv(e) && Stuck(s) && (ev.Move? ==> Stuck(After(e, s, ev.step)))
    ensures Stuck(Next(e, s, ev))
  {
  }

  /** A unit that cannot move never has a bump in progress. */
  lemma {:induction false} StuckReaches(e: Env, events: seq<Event>)
    requires ValidEnv(e) && CannotMove(e) && InTravel(e, events)
    ensures Stuck(RunFrom(e, INITIAL, events))
  {
    if events == [] {
    } else {
      var n := |events| - 1;
      StuckReaches(e, events[..n]);
      if events[n].Move? {
        StuckInBox(e, RunFrom(e, INITIAL, events[..n]), events[n].step);
      }
      StuckStep(e, RunFrom(e, INITIAL, events[..n]), events[n]);
    }
  }

  lemma TolerancePositive(e: Env)
    requires ValidEnv(e)
    ensures Threshold(e) >= 0.0
    ensures Threshold(e) > 0.0 <==> e.limits.up >= 5
  {
    if e.limits.up >= 5 {
      IntSquares(0, Tolerance(e));
    }
  }

  // ----- bumps that never end

  /** With a tolerance of zero a bump stays in progress however long the unit is held at its centre. */
  lemma NeverEnds(e: Env, s: State)
    requires ValidEnv(e) && e.limits.up < 5 && s.active && AverageSq(s) > 0.0
    ensures !EndsEventually(e, s)
  {
    forall n: nat | n > 0 ensures !EndsWithin(e, s, n) {
      var events := seq(n, _ => Move(FrameAt(Position(0, 0))));
      assert AllAtCentre(events);
      TolerancePositive(e);
      CentreRun(e, s, events);
      DecayBound(n);
      Positive(Decay(n), AverageSq(s));
      assert RunFrom(e, s, events).active;
    }
  }

  lemma NoLengthEnds(e: Env, s: State)
    requires ValidEnv(e) && AverageSq(s) == 0.0
    ensures EndsEventually(e, s)
  {
    forall events | |events| == 1 && AllAtCentre(events) ensures !RunFrom(e, s, events).active {
      CentreRun(e, s, events);
      Unit(Decay(1));
    }
    assert EndsWithin(e, s, 1);
  }

  /**
   However a run went, holding the unit at its centre ends the bump, exactly if the travel limit upwards is at least 5
   or the unit cannot move at all. Below 5 the centre tolerance is rounded down to zero, and the average only gets
   there in the limit.
   */
  lemma EveryBumpEnds(e: Env)
    requires ValidEnv(e)
    ensures (forall events :: InTravel(e, events) ==> EndsEventually(e, RunFrom(e, INITIAL, events)))
            <==> e.limits.up >= 5 || CannotMove(e)
  {
    if e.limits.up >= 5 || CannotMove(e) {
      forall events | InTravel(e, events) ensures EndsEventually(e, RunFrom(e, INITIAL, events)) {
        if CannotMove(e) {
          StuckReaches(e, events);
          NoLengthEnds(e, RunFrom(e, INITIAL, events));
        } else {
          SomeCount(e, RunFrom(e, INITIAL, events));
        }
      }
    } else {
      var p := SomewhereOut(e);
      StartedReaches(e, p);
      AwayFromCentre(At(p));
      NeverEnds(e, RunFrom(e, INITIAL, Started(p)));
    }
  }

  lemma AwayFromCentre(a: Point)
    requires a != Point(0.0, 0.0)
    ensures Sq(a) > 0.0
  {
    SqNonneg(a);
    ZeroLength(a);
  }

  // ----- bumps of undefined size

  /** The size of the bump scheduled after the run is a zero vector over its length. */
  ghost predicate EndsUndefined(e: Env, sqrt: real -> real, events: seq<Event>, st: Step)
    requires ValidEnv(e) && IsSqrt(sqrt)
  {
    InTravel(e, events) && InBox(e.limits, st.pos) && LastBump(e, sqrt, events, st) == Undefined
  }

  /** A dither in the middle of a bump, and a move that is not a guide step while the unit is at its centre. */
  lemma UndefinedRun(e: Env, sqrt: real -> real, p: Position)
    requires ValidEnv(e) && IsSqrt(sqrt) && InBox(e.limits, p) && !NearCentre(e, At(p))
    ensures EndsUndefined(e, sqrt, Started(p) + [Dithered], FrameAt(Position(0, 0)).(algoResult := false))
  {
    var st := FrameAt(Position(0, 0)).(algoResult := false);
    var events := Started(p) + [Dithered];
    StartedReaches(e, p);
    RunSnoc(e, INITIAL, Started(p), Dithered);
    var s := Next(e, RunFrom(e, INITIAL, events), Move(st));
    assert s.avg == Some(Point(0.0, 0.0)) && s.active;
    UndefinedExactly(e, sqrt, s, st);
    assert InTravel(e, events);
  }

  lemma NothingScheduled(e: Env, sqrt: real -> real, events: seq<Event>, st: Step)
    requires ValidEnv(e) && IsSqrt(sqrt) && CannotMove(e)
    ensures InTravel(e, events) && InBox(e.limits, st.pos) ==> LastBump(e, sqrt, events, st) == NoBump
  {
    if InTravel(e, events) && InBox(e.limits, st.pos) {
      StuckReaches(e, events);
      StuckInBox(e, RunFrom(e, INITIAL, events), st);
    }
  }

  /** Runs come to a bump of undefined size exactly if the unit can move. */
  lemma UndefinedReached(e: Env, sqrt: real -> real)
    requires ValidEnv(e) && IsSqrt(sqrt)
    ensures (exists events, st: Step :: EndsUndefined(e, sqrt, events, st)) <==> !CannotMove(e)
  {
    if CannotMove(e) {
      forall events, st: Step ensures !EndsUndefined(e, sqrt, events, st) {
        NothingScheduled(e, sqrt, events, st);
      }
    } else {
      var p := SomewhereOut(e);
      UndefinedRun(e, sqrt, p);
    }
  }

  // ----- bumps longer than half of the search region

  /** Whatever a run, no bump scheduled after it exceeds half of the search region. */
  ghost predicate KeepsHalf(e: Env, sqrt: real -> real)
    requires ValidEnv(e) && IsSqrt(sqrt)
  {
    forall events, st: Step :: InTravel(e, events) && InBox(e.limits, st.pos) ==> WithinHalf(e, sqrt, events, st)
  }

  ghost predicate WithinHalf(e: Env, sqrt: real -> real, events: seq<Event>, st: Step)
    requires ValidEnv(e) && IsSqrt(sqrt)
  {
    var b := LastBump(e, sqrt, events, st);
    b.Bump? ==> Sq(b.size) <= Square(HalfMove(e))
  }

  lemma RunWeight(e: Env, events: seq<Event>, st: Step)
    requires ValidEnv(e) && InTravel(e, events) && InBox(e.limits, st.pos)
    ensures WeightInRange(e, Next(e, RunFrom(e, INITIAL, events), Move(st)).weight)
  {
    RunKeeps(e, events);
    NextKeeps(e, RunFrom(e, INITIAL, events), Move(st));
  }

  lemma CappedScheduled(e: Env, sqrt: real -> real, s: State, st: Step)
    requires ValidEnv(e) && IsSqrt(sqrt) && WeightInRange(e, s.weight) && (Averages(st) ==> s.avg.Some?)
    requires 1.0 <= Cap(e) && e.boost <= Cap(e)
    ensures var b := Schedule(e, sqrt, s, st); b.Bump? ==> Sq(b.size) <= Square(HalfMove(e))
  {
    CapPositive(e);
    if Schedule(e, sqrt, s, st).Bump? {
      if st.limited {
        LargeLength(e, sqrt, st.offset);
      } else {
        CappedStays(e, sqrt, Used(e, s.weight, st.settling), s.avg.value, st.offset);
      }
    }
  }

  lemma CappedRuns(e: Env, sqrt: real -> real)
    requires ValidEnv(e) && IsSqrt(sqrt) && 1.0 <= Cap(e) && e.boost <= Cap(e)
    ensures KeepsHalf(e, sqrt)
  {
    forall events, st: Step | InTravel(e, events) && InBox(e.limits, st.pos) ensures WithinHalf(e, sqrt, events, st) {
      RunWeight(e, events, st);
      CappedScheduled(e, sqrt, Next(e, RunFrom(e, INITIAL, events), Move(st)), st);
    }
  }

  lemma StuckRuns(e: Env, sqrt: real -> real)
    requires ValidEnv(e) && IsSqrt(sqrt) && CannotMove(e)
    ensures KeepsHalf(e, sqrt)
  {
    forall events, st: Step | InTravel(e, events) && InBox(e.limits, st.pos) ensures WithinHalf(e, sqrt, events, st) {
      NothingScheduled(e, sqrt, events, st);
    }
  }

  /** The faster axis of the camera. */
  function Fast(e: Env, k: real): Point {
    if e.xRate > e.yRate then Point(k, 0.0) else Point(0.0, k)
  }

  /** Straight along the faster axis an unlimited bump has its full length. */
  lemma StraightLength(e: Env, len: real, k: real, weight: real)
    requires ValidEnv(e) && len != 0.0 && Square(len) == Sq(Fast(e, k))
    ensures Sq(Raw(e, Fast(e, k), len, weight)) == Square(Product(MovePx(e), weight))
  {
    var v := Fast(e, k);
    var (mx, my) := (Pixels(e.xRate, e.maxSteps, weight), Pixels(e.yRate, e.maxSteps, weight));
    AlongScaled(v.x, mx, len);
    AlongScaled(v.y, my, len);
    Normalised(v, len);
    SquareOfProduct(v.x / len, mx);
    SquareOfProduct(v.y / len, my);
    ZeroOver(len);
    SquareSign(0.0);
    Unit(Square(mx));
    Unit(Square(my));
  }

  lemma ZeroOver(len: real)
    requires len != 0.0
    ensures 0.0 / len == 0.0
  {
  }

  function Oriented(e: Env, c: real, s: real, mirrored: bool): Env {
    e.(cos := c, sin := s, mirrored := mirrored)
  }

  lemma OrientedSame(e: Env, c: real, s: real, a: Point, k: real, settling: bool)
    requires ValidEnv(e) && Square(c) + Square(s) == 1.0
    ensures var o := Oriented(e, c, s, false);
            && ValidEnv(o) && Cap(o) == Cap(e) && (NearCentre(o, a) <==> NearCentre(e, a))
            && Used(o, 1.0, settling) == Used(e, 1.0, settling) && Fast(o, k) == Fast(e, k)
  {
  }

  /** The camera can be turned so that the way home from a place on an axis of the box is along its faster axis. */
  lemma TurnToFast(e: Env, p: Position) returns (c: real, s: real, k: real)
    requires ValidEnv(e) && (p.x == 0 || p.y == 0) && p != Position(0, 0)
    ensures Square(c) + Square(s) == 1.0 && k != 0.0
    ensures Homeward(Oriented(e, c, s, false), At(p)) == Fast(e, k)
  {
    var a := Point(Product(e.xRate, -At(p).x), Product(e.yRate, -At(p).y));
    ZeroFactor(e.xRate, -At(p).x);
    ZeroFactor(e.yRate, -At(p).y);
    var along := if p.y == 0 then a.x else a.y;
    Unit(along);
    Unit(0.0);
    Unit(1.0);
    if (p.y == 0) == (e.xRate > e.yRate) {
      c, s, k := 1.0, 0.0, along;
    } else {
      c, s, k := 0.0, 1.0, if p.y == 0 then along else -along;
    }
  }

  lemma LengthOf(sqrt: real -> real, v: Point)
    requires IsSqrt(sqrt) && v != Point(0.0, 0.0)
    ensures sqrt(Sq(v)) != 0.0 && Square(sqrt(Sq(v))) == Sq(v)
  {
    SqNonneg(v);
    ZeroLength(v);
    RootZero(sqrt, Sq(v));
  }

  /** With the star as far away as the bump is long, the first bump is not cut. */
  lemma FirstBump(e: Env, sqrt: real -> real, st: Step, v: Point)
    requires ValidEnv(e) && IsSqrt(sqrt) && Normal(st) && !Busy(st) && !st.limited && !NearCentre(e, At(st.pos))
    requires v == Homeward(e, At(st.pos)) && sqrt(Sq(v)) != 0.0
    requires st.offset == Raw(e, v, sqrt(Sq(v)), Used(e, 1.0, st.settling))
    ensures LastBump(e, sqrt, [Forced], st) == Bump(st.offset)
  {
    ForcedFrame(e, st);
  }

  lemma FullIsTooLong(e: Env, weight: real, b: Point)
    requires ValidEnv(e) && weight > Cap(e) && weight >= 0.0
    requires Sq(b) == Square(Product(MovePx(e), weight))
    ensures Sq(b) > Square(HalfMove(e))
  {
    CapMeans(e, weight);
  }

  lemma Exceeds(e: Env, sqrt: real -> real, events: seq<Event>, st: Step, b: Point)
    requires ValidEnv(e) && IsSqrt(sqrt) && LastBump(e, sqrt, events, st) == Bump(b) && Sq(b) > Square(HalfMove(e))
    ensures !WithinHalf(e, sqrt, events, st)
  {
  }

  lemma TooLongAt(e: Env, sqrt: real -> real, p: Position, k: real, settling: bool) returns (st: Step)
    requires ValidEnv(e) && IsSqrt(sqrt) && Used(e, 1.0, settling) > Cap(e) && !NearCentre(e, At(p))
    requires Fast(e, k) == Homeward(e, At(p)) && k != 0.0
    ensures st.pos == p && !WithinHalf(e, sqrt, [Forced], st)
  {
    var v, w := Fast(e, k), Used(e, 1.0, settling);
    LengthOf(sqrt, v);
    var b := Raw(e, v, sqrt(Sq(v)), w);
    st := FrameAt(p).(settling := settling, offset := b);
    FirstBump(e, sqrt, st, v);
    StraightLength(e, sqrt(Sq(v)), k, w);
    FullIsTooLong(e, w, b);
    Exceeds(e, sqrt, [Forced], st, b);
  }

  /** With a weight above the cap, in a suitable orientation of the camera, the first bump is already too long. */
  lemma TooLong(e: Env, sqrt: real -> real, settling: bool) returns (c: real, s: real, st: Step)
    requires ValidEnv(e) && IsSqrt(sqrt) && !CannotMove(e) && Used(e, 1.0, settling) > Cap(e)
    ensures ValidEnv(Oriented(e, c, s, false)) && InBox(e.limits, st.pos)
    ensures !WithinHalf(Oriented(e, c, s, false), sqrt, [Forced], st)
  {
    var p := SomewhereOut(e);
    var k;
    c, s, k := TurnToFast(e, p);
    OrientedSame(e, c, s, At(p), k, settling);
    st := TooLongAt(Oriented(e, c, s, false), sqrt, p, k, settling);
  }

  /**
   The source caps the weight so that no bump exceeds half of the search region, but neither the initial weight nor the
   settling boost is capped. On the runs of a unit that can move the promise holds, however the camera is turned,
   exactly if neither of them is above the cap.
   */
  lemma HalfRegionPromise(e: Env, sqrt: real -> real)
    requires ValidEnv(e) && IsSqrt(sqrt)
    ensures (forall c, s, mirrored :: Square(c) + Square(s) == 1.0 ==> KeepsHalf(Oriented(e, c, s, mirrored), sqrt))
            <==> CannotMove(e) || (1.0 <= Cap(e) && e.boost <= Cap(e))
  {
    if CannotMove(e) || (1.0 <= Cap(e) && e.boost <= Cap(e)) {
      forall c, s, mirrored | Square(c) + Square(s) == 1.0 ensures KeepsHalf(Oriented(e, c, s, mirrored), sqrt) {
        var o := Oriented(e, c, s, mirrored);
        if CannotMove(e) {
          StuckRuns(o, sqrt);
        } else {
          CappedRuns(o, sqrt);
        }
      }
    } else {
      var settling := 1.0 <= Cap(e);
      var c, s, st := TooLong(e, sqrt, settling);
      var o := Oriented(e, c, s, false);
      assert InTravel(o, [Forced]) && InBox(o.limits, st.pos) && !WithinHalf(o, sqrt, [Forced], st);
      assert !KeepsHalf(o, sqrt);
    }
  }
}
