/**
 Calibration runs on a device that fails: a failed move costs at most one frame, the run gives up exactly after the
 thirteenth, and a run that completes has measured the same and ended at the same place as one without failures.
 */
module CalibrationErrors {
  import opened Options
  import opened StepGuiding
  import opened CalibrationLaws

  const MAX_ERRORS := 12

  type Look = (Position, nat) -> Point

  /** What the device answers to the moves of each frame. */
  type Answers = (Direction, nat) -> Answer

  /** stopped: the device ran into its own limit, which stops guiding. */
  datatype State = State(pos: Position, cal: Cal, errors: nat, stopped: bool)

  predicate Ended(s: State) {
    s.stopped || s.cal.phase.Complete? || s.cal.phase.Cleared?
  }

  /** Where the device is in each phase. */
  ghost predicate Where(g: Config, p: Position, c: Cal)
    requires ValidConfig(g)
  {
    && InBox(g.limits, p)
    && (c.phase != GotoLowerRight ==> c.start.Some?)
    && match c.phase
       case GotoLowerRight => true
       case AverageStarting => Sampling(g, c) && p == BottomRight(g)
       case GoLeft => p.y == -Limit(g, Down)
       case AverageCenter => Sampling(g, c) && p == BottomLeft(g)
       case GoUp => p.x == -Limit(g, Left)
       case AverageEnding => Sampling(g, c) && p == TopLeft(g)
       case Recenter => WholeStrides(g, p)
       case Complete => WholeStrides(g, p) && -p.x < g.stepsPerIteration && p.y < g.stepsPerIteration
       case Cleared => false
  }

  /** A whole number of strides from the top left, on the way to the centre. */
  ghost predicate WholeStrides(g: Config, p: Position)
    requires ValidConfig(g)
  {
    && p.x <= 0 <= p.y
    && (-p.x) % g.stepsPerIteration == Limit(g, Left) % g.stepsPerIteration
    && p.y % g.stepsPerIteration == Limit(g, Up) % g.stepsPerIteration
  }

  // ----- the counts and logs of a record do not matter

  ghost predicate SameButLogs(c: Cal, d: Cal) {
    d == c.(iterations := d.iterations, raSteps := d.raSteps, decSteps := d.decSteps)
  }

  /** The moves that are scheduled in a phase. */
  function Wanted(g: Config, p: Position, phase: CalPhase): Moves {
    match phase
    case GotoLowerRight => Moves(false, Room(g.limits, p, Down) > 0, Room(g.limits, p, Right) > 0, false)
    case GoLeft => STAY.(left := Room(g.limits, p, Left) > 0)
    case GoUp => STAY.(up := Room(g.limits, p, Up) > 0)
    case Recenter =>
      Moves(false, CurrentPosition(p, Up) >= g.stepsPerIteration, CurrentPosition(p, Left) >= g.stepsPerIteration,
            false)
    case _ => STAY
  }

  /** Two updates with the same result but for the logs, which schedule what the phase wants. */
  ghost predicate Alike(g: Config, p: Position, u: (Cal, Moves), v: (Cal, Moves)) {
    u.1 == v.1 == Wanted(g, p, u.0.phase) && SameButLogs(u.0, v.0)
  }

  lemma RecenterAlike(g: Config, p: Position, c: Cal, d: Cal)
    requires SameButLogs(c, d) && c.phase == Recenter
    ensures Alike(g, p, AtRecenter(g, p, c), AtRecenter(g, p, d))
  {
  }

  lemma EndingAlike(g: Config, p: Position, c: Cal, d: Cal, loc: Point)
    requires ValidConfig(g) && SameButLogs(c, d) && c.phase == AverageEnding && c.start.Some?
    ensures Alike(g, p, AtAverageEnding(g, p, c, loc), AtAverageEnding(g, p, d, loc))
  {
    hide AtRecenter;
    var e, f := Sampled(c, loc), Sampled(d, loc);
    if e.samples >= g.samplesToAverage {
      var avg := Over(e.sum, e.samples);
      var axis := Some(Axis(Minus(avg, e.start.value), SpanY(g.limits)));
      RecenterAlike(g, p, e.(sum := avg, yAxis := axis, start := Some(avg), phase := Recenter),
                    f.(sum := avg, yAxis := axis, start := Some(avg), phase := Recenter));
    }
  }

  lemma UpAlike(g: Config, p: Position, c: Cal, d: Cal, loc: Point)
    requires ValidConfig(g) && SameButLogs(c, d) && c.phase == GoUp && c.start.Some?
    ensures Alike(g, p, AtGoUp(g, p, c, loc), AtGoUp(g, p, d, loc))
  {
    hide AtAverageEnding;
    EndingAlike(g, p, Cleansed(c, AverageEnding), Cleansed(d, AverageEnding), loc);
  }

  lemma CenterAlike(g: Config, p: Position, c: Cal, d: Cal, loc: Point)
    requires ValidConfig(g) && SameButLogs(c, d) && c.phase == AverageCenter && c.start.Some?
    ensures Alike(g, p, AtAverageCenter(g, p, c, loc), AtAverageCenter(g, p, d, loc))
  {
    hide AtGoUp;
    var e, f := Sampled(c, loc), Sampled(d, loc);
    if e.samples >= g.samplesToAverage {
      var avg := Over(e.sum, e.samples);
      var axis := Some(Axis(Minus(e.start.value, avg), SpanX(g.limits)));
      UpAlike(g, p, e.(sum := avg, xAxis := axis, start := Some(avg), iterations := 0, phase := GoUp),
              f.(sum := avg, xAxis := axis, start := Some(avg), iterations := 0, phase := GoUp), loc);
    }
  }

  lemma LeftAlike(g: Config, p: Position, c: Cal, d: Cal, loc: Point)
    requires ValidConfig(g) && SameButLogs(c, d) && c.phase == GoLeft && c.start.Some?
    ensures Alike(g, p, AtGoLeft(g, p, c, loc), AtGoLeft(g, p, d, loc))
  {
    hide AtAverageCenter;
    CenterAlike(g, p, Cleansed(c, AverageCenter), Cleansed(d, AverageCenter), loc);
  }

  lemma StartingAlike(g: Config, p: Position, c: Cal, d: Cal, loc: Point)
    requires ValidConfig(g) && SameButLogs(c, d) && c.phase == AverageStarting
    ensures Alike(g, p, AtAverageStarting(g, p, c, loc), AtAverageStarting(g, p, d, loc))
  {
    hide AtGoLeft;
    var e, f := Sampled(c, loc), Sampled(d, loc);
    if e.samples >= g.samplesToAverage {
      var avg := Over(e.sum, e.samples);
      LeftAlike(g, p, e.(sum := avg, start := Some(avg), iterations := 0, phase := GoLeft),
                f.(sum := avg, start := Some(avg), iterations := 0, phase := GoLeft), loc);
    }
  }

  lemma GotoAlike(g: Config, p: Position, c: Cal, d: Cal, loc: Point)
    requires ValidConfig(g) && InBox(g.limits, p) && SameButLogs(c, d) && c.phase == GotoLowerRight
    ensures Alike(g, p, AtGoto(g, p, c, loc), AtGoto(g, p, d, loc))
  {
    hide AtAverageStarting;
    CeilNatural(Room(g.limits, p, Down), g.stepsPerIteration);
    CeilNatural(Room(g.limits, p, Right), g.stepsPerIteration);
    StartingAlike(g, p, Cleansed(c, AverageStarting), Cleansed(d, AverageStarting), loc);
  }

  /** An update neither looks at the logs nor schedules anything but what the phase it ends in wants. */
  lemma UpdatesAlike(g: Config, p: Position, c: Cal, d: Cal, loc: Point)
    requires ValidConfig(g) && InBox(g.limits, p) && SameButLogs(c, d)
    requires c.start.None? ==> c.phase == GotoLowerRight
    ensures Alike(g, p, Update(g, p, c, loc), Update(g, p, d, loc))
  {
    hide AtGoto, AtAverageStarting, AtGoLeft, AtAverageCenter, AtGoUp, AtAverageEnding, AtRecenter;
    var e := if c.start.None? then c.(start := Some(loc)) else c;
    var f := if d.start.None? then d.(start := Some(loc)) else d;
    match c.phase
    case GotoLowerRight => GotoAlike(g, p, e, f, loc);
    case AverageStarting => StartingAlike(g, p, e, f, loc);
    case GoLeft => LeftAlike(g, p, e, f, loc);
    case AverageCenter => CenterAlike(g, p, e, f, loc);
    case GoUp => UpAlike(g, p, e, f, loc);
    case AverageEnding => EndingAlike(g, p, e, f, loc);
    case Recenter => RecenterAlike(g, p, e, f);
    case _ =>
  }

  lemma CeilMonotone(a: int, b: int, d: int)
    requires d > 0 && a <= b
    ensures CeilDiv(a, d) <= CeilDiv(b, d)
  {
    DivAtLeast(b + d - 1, d, CeilDiv(a, d));
  }

  function Blank(n: int): seq<Point>
  {
    if n < 0 then [] else seq(n, i => Point(0.0, 0.0))
  }

  /** The record with the counts and logs that a run without failures would have made. */
  function Tracked(g: Config, p: Position, c: Cal): Cal
    requires ValidConfig(g)
  {
    var left, up := CeilDiv(SpanX(g.limits), g.stepsPerIteration), CeilDiv(SpanY(g.limits), g.stepsPerIteration);
    match c.phase
    case GotoLowerRight | AverageStarting => c.(raSteps := [], decSteps := [])
    case GoLeft =>
      var n := left - Iterations(g, p, Left);
      c.(iterations := n, raSteps := Blank(n), decSteps := [])
    case AverageCenter => c.(iterations := left, raSteps := Blank(left), decSteps := [])
    case GoUp =>
      var n := up - Iterations(g, p, Up);
      c.(iterations := n, raSteps := Blank(left), decSteps := Blank(n))
    case _ => c.(iterations := up, raSteps := Blank(left), decSteps := Blank(up))
  }

  lemma TrackedOnTrack(g: Config, p: Position, c: Cal)
    requires ValidConfig(g) && Where(g, p, c)
    ensures SameButLogs(c, Tracked(g, p, c)) && OnTrack(g, p, Tracked(g, p, c))
  {
    var d := g.stepsPerIteration;
    CeilNatural(SpanX(g.limits), d);
    CeilNatural(SpanY(g.limits), d);
    CeilMonotone(Room(g.limits, p, Left), SpanX(g.limits), d);
    CeilMonotone(Room(g.limits, p, Up), SpanY(g.limits), d);
  }

  lemma OnTrackWhere(g: Config, p: Position, c: Cal, d: Cal)
    requires ValidConfig(g) && OnTrack(g, p, d) && SameButLogs(c, d)
    ensures Where(g, p, c) && Remaining(g, p, c) == Remaining(g, p, d)
  {
  }

  // ----- one frame

  /** Those of the moves that the device carries out. */
  function Obeyed(v: Moves, enabled: bool, answers: Direction -> Answer): Moves {
    Moves(v.up && enabled && answers(Up).step.StepOk?, v.down && enabled && answers(Down).step.StepOk?,
          v.right && enabled && answers(Right).step.StepOk?, v.left && enabled && answers(Left).step.StepOk?)
  }

  predicate Obeys(enabled: bool, answers: Direction -> Answer) {
    && enabled && answers(Up).step.StepOk? && answers(Down).step.StepOk?
    && answers(Left).step.StepOk? && answers(Right).step.StepOk?
  }

  lemma ThenObeyed(g: Config, from: Position, done: Done, wanted: bool, d: Direction, enabled: bool, a: Answer)
    requires ValidConfig(g) && InBox(g.limits, from) && InBox(g.limits, done.pos) && d != NoDirection
    requires wanted ==> Room(g.limits, from, d) > 0
    requires wanted && !done.limit ==> Room(g.limits, done.pos, d) == Room(g.limits, from, d)
    ensures var r, ok := Then(g, from, done, wanted, d, enabled, a), enabled && a.step.StepOk?;
            && InBox(g.limits, r.pos) && r.errors <= done.errors + (if wanted then 1 else 0)
            && (done.limit ==> r.limit) && (r.limit ==> done.limit || a.step.StepLimitReached?)
            && (!r.limit ==> && r.pos == (if wanted && ok then Moved(done.pos, d, Stride(g, from, d)) else done.pos)
                             && r.errors == done.errors + if wanted && !ok then 1 else 0)
  {
  }

  /** Unless the device runs into its own limit, a frame moves it by the obeyed moves and counts the others. */
  lemma PerformObeyed(g: Config, p: Position, phase: CalPhase, enabled: bool, answers: Direction -> Answer)
    requires ValidConfig(g) && InBox(g.limits, p)
    ensures var v := Wanted(g, p, phase); var w := Obeyed(v, enabled, answers);
            var r := Perform(g, p, v, enabled, answers);
            && InBox(g.limits, r.pos) && r.errors <= 2
            && (r.limit ==> !Obeys(enabled, answers))
            && (!r.limit ==> r.pos == Apply(g, p, w) && (r.errors == 0 <==> v == w))
  {
    hide Then;
    var v := Wanted(g, p, phase);
    var up := Then(g, p, Done(p, 0, false), v.up, Up, enabled, answers(Up));
    var down := Then(g, p, up, v.down, Down, enabled, answers(Down));
    var right := Then(g, p, down, v.right, Right, enabled, answers(Right));
    ThenObeyed(g, p, Done(p, 0, false), v.up, Up, enabled, answers(Up));
    ThenObeyed(g, p, up, v.down, Down, enabled, answers(Down));
    ThenObeyed(g, p, down, v.right, Right, enabled, answers(Right));
    ThenObeyed(g, p, right, v.left, Left, enabled, answers(Left));
  }

  lemma PartGoto(g: Config, p: Position, c: Cal, w: Moves)
    requires ValidConfig(g) && InBox(g.limits, p) && c.phase == GotoLowerRight
    requires var v := Wanted(g, p, c.phase);
             !w.up && !w.left && (w.down ==> v.down) && (w.right ==> v.right) && v != STAY
    ensures var q, full := Apply(g, p, w), Apply(g, p, Wanted(g, p, c.phase));
            && InBox(g.limits, q)
            && Remaining(g, full, c) <= Remaining(g, q, c) <= Remaining(g, full, c) + 1
  {
    var d := g.stepsPerIteration;
    CeilNatural(Room(g.limits, p, Down), d);
    CeilNatural(Room(g.limits, p, Right), d);
    if Room(g.limits, p, Down) > 0 { CeilLess(Room(g.limits, p, Down), d); }
    if Room(g.limits, p, Right) > 0 { CeilLess(Room(g.limits, p, Right), d); }
  }

  lemma PartRecenter(g: Config, p: Position, c: Cal, w: Moves)
    requires ValidConfig(g) && InBox(g.limits, p) && c.phase == Recenter
    requires var v := Wanted(g, p, c.phase);
             !w.up && !w.left && (w.down ==> v.down) && (w.right ==> v.right) && v != STAY
             && WholeStrides(g, Apply(g, p, v))
    ensures var q, full := Apply(g, p, w), Apply(g, p, Wanted(g, p, c.phase));
            && InBox(g.limits, q) && WholeStrides(g, q)
            && Remaining(g, full, c) <= Remaining(g, q, c) <= Remaining(g, full, c) + 1
  {
    var d := g.stepsPerIteration;
    if -p.x >= d { StrideBack(-p.x, d); }
    if p.y >= d { StrideBack(p.y, d); }
  }

  /** If some of the moves of a frame fail, the device is where the phase allows, and at most one frame is lost. */
  lemma PartMoved(g: Config, p: Position, c: Cal, w: Moves)
    requires ValidConfig(g) && InBox(g.limits, p)
    requires var v := Wanted(g, p, c.phase);
             && (w.up ==> v.up) && (w.down ==> v.down) && (w.right ==> v.right) && (w.left ==> v.left)
             && v != STAY && Where(g, Apply(g, p, v), c)
    ensures var q, full := Apply(g, p, w), Apply(g, p, Wanted(g, p, c.phase));
            Where(g, q, c) && Remaining(g, full, c) <= Remaining(g, q, c) <= Remaining(g, full, c) + 1
  {
    match c.phase
    case GotoLowerRight => PartGoto(g, p, c, w);
    case GoLeft => CeilLess(Room(g.limits, p, Left), g.stepsPerIteration);
    case GoUp => CeilLess(Room(g.limits, p, Up), g.stepsPerIteration);
    case Recenter => PartRecenter(g, p, c, w);
    case _ =>
  }

  lemma UpdateMoved(g: Config, p: Position, c: Cal, loc: Point)
    requires ValidConfig(g) && Where(g, p, c) && c.phase != Complete
    ensures var u := Update(g, p, c, loc); var q := Apply(g, p, u.1);
            Where(g, q, u.0) && Remaining(g, q, u.0) == Remaining(g, p, c) - 1
  {
    var t := Tracked(g, p, c);
    TrackedOnTrack(g, p, c);
    UpdatesAlike(g, p, c, t, loc);
    FrameOnTrack(g, p, t, loc);
    OnTrackWhere(g, p, c, t);
    OnTrackWhere(g, Frame(g, p, t, loc).0, Update(g, p, c, loc).0, Frame(g, p, t, loc).1);
  }

  /** The next frame: it does nothing once the run is over, and gives up when too many moves have failed. */
  function Next(g: Config, s: State, loc: Point, enabled: bool, answers: Direction -> Answer): State
    requires ValidConfig(g) && (s.cal.start.None? ==> s.cal.phase == GotoLowerRight || Ended(s))
  {
    if Ended(s) then s
    else if s.errors > MAX_ERRORS then s.(cal := s.cal.(phase := Cleared))
    else
      var u := Update(g, s.pos, s.cal, loc);
      var r := Perform(g, s.pos, u.1, enabled, answers);
      State(r.pos, u.0, s.errors + r.errors, r.limit)
  }

  ghost predicate Sound(g: Config, s: State)
    requires ValidConfig(g)
  {
    && InBox(g.limits, s.pos)
    && (!s.stopped && !s.cal.phase.Cleared? ==> Where(g, s.pos, s.cal))
    && (!s.stopped && s.cal.phase.Complete? ==> s.errors <= MAX_ERRORS)
    && (!s.stopped && s.cal.phase.Cleared? ==> s.errors > MAX_ERRORS)
  }

  /** Frames that failed moves can have cost so far. */
  function Lost(errors: nat): nat {
    Min(errors, MAX_ERRORS + 1)
  }

  lemma NextSound(g: Config, s: State, loc: Point, enabled: bool, answers: Direction -> Answer)
    requires ValidConfig(g) && Sound(g, s)
    ensures var t := Next(g, s, loc, enabled, answers);
            && Sound(g, t) && t.errors >= s.errors
            && (Ended(s) ==> t == s) && (s.errors > MAX_ERRORS ==> Ended(t) && (Ended(s) || t.cal.phase.Cleared?))
            && (!Ended(s) && s.errors <= MAX_ERRORS && !t.stopped ==>
                  Remaining(g, s.pos, s.cal) <= Remaining(g, t.pos, t.cal) + 1
                    <= Remaining(g, s.pos, s.cal) + Lost(t.errors) - Lost(s.errors))
  {
    if !Ended(s) && s.errors <= MAX_ERRORS {
      var u := Update(g, s.pos, s.cal, loc);
      UpdatesAlike(g, s.pos, s.cal, s.cal, loc);
      PerformObeyed(g, s.pos, u.0.phase, enabled, answers);
      UpdateMoved(g, s.pos, s.cal, loc);
      var w := Obeyed(u.1, enabled, answers);
      if w != u.1 {
        PartMoved(g, s.pos, u.0, w);
      }
    }
  }

  // ----- runs

  function Run(g: Config, s: State, look: Look, enabled: nat -> bool, answers: Answers, n: nat): (t: State)
    requires ValidConfig(g) && Sound(g, s)
    ensures Sound(g, t)
  {
    if n == 0 then s
    else
      var k := n - 1;
      var before := Run(g, s, look, enabled, answers, k);
      NextSound(g, before, look(before.pos, k), enabled(k), d => answers(d, k));
      Next(g, before, look(before.pos, k), enabled(k), d => answers(d, k))
  }

  lemma {:induction false} RunCosts(g: Config, s: State, look: Look, enabled: nat -> bool, answers: Answers, n: nat)
    requires ValidConfig(g) && Sound(g, s) && s.errors == 0
    ensures var t := Run(g, s, look, enabled, answers, n);
            && (!Ended(t) ==> Remaining(g, t.pos, t.cal) + n <= Remaining(g, s.pos, s.cal) + Lost(t.errors))
            && (!t.stopped && !t.cal.phase.Cleared? ==>
                  Remaining(g, s.pos, s.cal) <= Remaining(g, t.pos, t.cal) + n)
  {
    hide Next, Remaining;
    if n == 0 {
    } else {
      var k := n - 1;
      RunCosts(g, s, look, enabled, answers, k);
      var before := Run(g, s, look, enabled, answers, k);
      NextSound(g, before, look(before.pos, k), enabled(k), d => answers(d, k));
    }
  }

  /** The state when calibration begins, whose errors have just been reset. */
  function Start(p: Position, c: Cal): State {
    State(p, c, 0, false)
  }

  lemma StartSound(g: Config, p: Position, c: Cal)
    requires ValidConfig(g) && InBox(g.limits, p) && Begun(c)
    ensures Sound(g, Start(p, c)) && OnTrack(g, p, c)
    ensures Remaining(g, p, c) == Max(Iterations(g, p, Down), Iterations(g, p, Right)) + FromBottomRight(g)
  {
  }

  lemma WhereRemaining(g: Config, p: Position, c: Cal)
    requires ValidConfig(g) && Where(g, p, c)
    ensures Remaining(g, p, c) >= 0 && (Remaining(g, p, c) == 0 <==> c.phase == Complete)
    ensures c.phase == Complete ==>
              -p.x == Limit(g, Left) % g.stepsPerIteration && p.y == Limit(g, Up) % g.stepsPerIteration
  {
    var d := Tracked(g, p, c);
    TrackedOnTrack(g, p, c);
    RemainingNatural(g, p, d);
    OnTrackWhere(g, p, c, d);
    if c.phase == Complete { CompleteOffsets(g, p, d); }
  }

  /**
   Whatever the device does, a run ends: it takes the frames of a run without failures and at most one more for each of
   the first thirteen failed moves. Unless it was stopped it is then complete exactly if no more than twelve failed.
   */
  lemma CalibrationEnds(g: Config, p: Position, c: Cal, look: Look, enabled: nat -> bool, answers: Answers, n: nat)
    requires ValidConfig(g) && InBox(g.limits, p) && Begun(c)
    ensures Sound(g, Start(p, c))
    ensures var t := Run(g, Start(p, c), look, enabled, answers, n);
            var frames := Max(Iterations(g, p, Down), Iterations(g, p, Right)) + FromBottomRight(g);
            && (n >= frames + Lost(t.errors) ==> Ended(t))
            && (Ended(t) && !t.stopped ==> (t.cal.phase == Complete <==> t.errors <= MAX_ERRORS))
            && (t.cal.phase == Complete && !t.stopped ==>
                  && n >= frames
                  && -t.pos.x == Limit(g, Left) % g.stepsPerIteration && t.pos.y == Limit(g, Up) % g.stepsPerIteration)
  {
    StartSound(g, p, c);
    RunCosts(g, Start(p, c), look, enabled, answers, n);
    var t := Run(g, Start(p, c), look, enabled, answers, n);
    if !t.stopped && !t.cal.phase.Cleared? {
      WhereRemaining(g, t.pos, t.cal);
    }
  }

  // ----- what is measured all the same

  ghost predicate StillMeasured(g: Config, d: Plant, s: State) {
    !s.stopped && !s.cal.phase.Cleared? ==> Measured(g, d, s.pos, s.cal)
  }

  lemma UpdateMeasured(g: Config, d: Plant, p: Position, c: Cal)
    requires ValidConfig(g) && Where(g, p, c) && Measured(g, d, p, c)
    ensures var u := Update(g, p, c, Seen(d, p)); Measured(g, d, Apply(g, p, u.1), u.0)
  {
    var t := Tracked(g, p, c);
    TrackedOnTrack(g, p, c);
    UpdatesAlike(g, p, c, t, Seen(d, p));
    FrameMeasures(g, d, p, t);
    MeasuredAlike(g, d, Frame(g, p, t, Seen(d, p)).0, Update(g, p, c, Seen(d, p)).0, Frame(g, p, t, Seen(d, p)).1);
  }

  lemma MeasuredAlike(g: Config, d: Plant, p: Position, c: Cal, e: Cal)
    requires SameButLogs(c, e) && Measured(g, d, p, e)
    ensures Measured(g, d, p, c)
  {
  }

  lemma PartMeasured(g: Config, d: Plant, p: Position, c: Cal, w: Moves)
    requires Measured(g, d, Apply(g, p, Wanted(g, p, c.phase)), c) && w != Wanted(g, p, c.phase)
    requires var v := Wanted(g, p, c.phase);
             (w.up ==> v.up) && (w.down ==> v.down) && (w.right ==> v.right) && (w.left ==> v.left)
    ensures Measured(g, d, Apply(g, p, w), c)
  {
  }

  lemma NextMeasured(g: Config, d: Plant, s: State, enabled: bool, answers: Direction -> Answer)
    requires ValidConfig(g) && Sound(g, s) && StillMeasured(g, d, s)
    ensures StillMeasured(g, d, Next(g, s, Seen(d, s.pos), enabled, answers))
  {
    if !Ended(s) && s.errors <= MAX_ERRORS {
      var u := Update(g, s.pos, s.cal, Seen(d, s.pos));
      UpdatesAlike(g, s.pos, s.cal, s.cal, Seen(d, s.pos));
      PerformObeyed(g, s.pos, u.0.phase, enabled, answers);
      UpdateMeasured(g, d, s.pos, s.cal);
      var w := Obeyed(u.1, enabled, answers);
      if w != u.1 {
        PartMeasured(g, d, s.pos, u.0, w);
      }
    }
  }

  lemma {:induction false} RunMeasured(g: Config, d: Plant, s: State, enabled: nat -> bool, answers: Answers, n: nat)
    requires ValidConfig(g) && Sound(g, s) && StillMeasured(g, d, s)
    ensures StillMeasured(g, d, Run(g, s, (q: Position, k: nat) => Seen(d, q), enabled, answers, n))
  {
    hide Next, StillMeasured;
    if n == 0 {
    } else {
      var k := n - 1;
      RunMeasured(g, d, s, enabled, answers, k);
      var before := Run(g, s, (q: Position, i: nat) => Seen(d, q), enabled, answers, k);
      NextMeasured(g, d, before, enabled(k), m => answers(m, k));
    }
  }

  /** Failed moves do not spoil a calibration: a complete run has the step vectors of the device all the same. */
  lemma FailuresDoNotMatter(g: Config, d: Plant, p: Position, c: Cal, enabled: nat -> bool, answers: Answers, n: nat)
    requires ValidConfig(g) && InBox(g.limits, p) && Begun(c)
    requires SpanX(g.limits) > 0 && SpanY(g.limits) > 0
    ensures Sound(g, Start(p, c))
    ensures var t := Run(g, Start(p, c), (q: Position, k: nat) => Seen(d, q), enabled, answers, n); var r := t.cal;
            !t.stopped && r.phase == Complete ==>
              && r.xAxis.Some? && r.xAxis.value.steps == SpanX(g.limits)
              && StepGuiding.Over(r.xAxis.value.vector, r.xAxis.value.steps) == d.ex
              && r.yAxis.Some? && r.yAxis.value.steps == SpanY(g.limits)
              && StepGuiding.Over(r.yAxis.value.vector, r.yAxis.value.steps) == d.ey
  {
    StartSound(g, p, c);
    RunMeasured(g, d, Start(p, c), enabled, answers, n);
    AverageOfSame(SpanX(g.limits), d.ex);
    AverageOfSame(SpanY(g.limits), d.ey);
  }

  /** On a device that never fails the run is the plain one. */
  lemma {:induction false} NoFailures(g: Config, p: Position, c: Cal, look: Look, enabled: nat -> bool,
                                      answers: Answers, n: nat)
    requires ValidConfig(g) && InBox(g.limits, p) && Begun(c)
    requires forall k: nat :: k < n ==> Obeys(enabled(k), d => answers(d, k))
    ensures Sound(g, Start(p, c)) && OnTrack(g, p, c)
    ensures var t, r := Run(g, Start(p, c), look, enabled, answers, n), CalibrationLaws.Run(g, p, c, look, n);
            t == State(r.0, r.1, 0, false)
  {
    hide Update, Perform, OnTrack, Sound;
    StartSound(g, p, c);
    if n == 0 {
    } else {
      var k := n - 1;
      NoFailures(g, p, c, look, enabled, answers, k);
      var before := CalibrationLaws.Run(g, p, c, look, k);
      ObedientNext(g, before.0, before.1, look(before.0, k), enabled(k), d => answers(d, k));
    }
  }

  lemma ObedientNext(g: Config, p: Position, c: Cal, loc: Point, enabled: bool, answers: Direction -> Answer)
    requires ValidConfig(g) && OnTrack(g, p, c)
    requires Obeys(enabled, answers)
    ensures var f := Frame(g, p, c, loc);
            Next(g, State(p, c, 0, false), loc, enabled, answers) == State(f.0, f.1, 0, false)
  {
    hide Perform;
    var u := Update(g, p, c, loc);
    UpdatesAlike(g, p, c, c, loc);
    PerformObeyed(g, p, u.0.phase, enabled, answers);
    assert Obeyed(u.1, enabled, answers) == u.1;
  }
}
