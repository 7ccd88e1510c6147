/**
 What a guide operation has done by the time it settles, on every run, whatever the rest of the program answers: it has
 found a star, cleared and obtained a calibration, and started guiding, unless the guider was at it already.
 */
module GuideLaws {
  import opened Controller
  import opened ControllerLaws
  import opened SettleLaws

  /** What the log says of the operation accepted last. */
  datatype Deeds = Deeds(
    op: Op,
    started: bool,      // guiding was started
    refused: bool,      // the program refused to start it
    cleared: bool,      // the calibration was cleared
    bare: bool,         // settling began without guiding having been started
    uncleared: bool,    // settling began without the calibration having been cleared
    unjustified: bool)  // settling began after a refusal, or success was reported without settling

  /** What the program answered to the operation accepted last. */
  datatype Heard = Heard(
    connected: bool,    // all gear is connected
    busy: bool,         // the guider is calibrating or guiding
    guiding: bool,      // and is past calibration
    selected: bool,     // a star is selected
    calibrated: bool)   // mounts are calibrated

  const NO_DEEDS := Deeds(OpGuide, false, false, false, false, false, false)
  const NOTHING := Heard(false, false, false, false, false)

  function Note(d: Deeds, begun: bool, e: Event): Deeds {
    match e
    case Accepted(op) => NO_DEEDS.(op := op)
    case StartGuiding(ok) => if ok then d.(started := true) else d.(refused := true)
    case ClearCalibration => d.(cleared := true)
    case NotifySettleBegin =>
      d.(bare := d.bare || !d.started, uncleared := d.uncleared || !d.cleared,
         unjustified := d.unjustified || d.refused)
    case NotifySettleDone(ok, _, _, _) => d.(unjustified := d.unjustified || (ok && !begun))
    case _ => d
  }

  /** Settling has begun since the last acceptance. */
  function BegunIn(log: seq<Event>): bool {
    if log == [] then false
    else
      match log[|log| - 1]
      case Accepted(_) => false
      case NotifySettleBegin => true
      case _ => BegunIn(log[..|log| - 1])
  }

  function DeedsIn(log: seq<Event>): Deeds {
    if log == [] then NO_DEEDS
    else Note(DeedsIn(log[..|log| - 1]), BegunIn(log[..|log| - 1]), log[|log| - 1])
  }

  /** The answers that a pass asks for. */
  function Hear(h: Heard, p: Phase, w: World): Heard {
    match p
    case AttemptStart =>
      h.(connected := w.gearConnected,
         busy := h.busy || IsCalibratingOrGuiding(w.guiderState),
         guiding := h.guiding || w.guiderState.Calibrated? || w.guiderState.Guiding?,
         selected := h.selected || w.guiderState.Selected?)
    case WaitSelected => h.(selected := h.selected || w.guiderState.Selected?)
    case Calibrate => h.(calibrated := h.calibrated || w.calibrated)
    case CalibrationWait => h.(calibrated := h.calibrated || w.calibrated)
    case _ => h
  }

  function UpdateHeard(h: Heard, c: Ctrl, log: seq<Event>, env: nat -> World, k: nat): Heard
    decreases Rank(c.phase)
  {
    var o, g := Pass(c, log, env(k)), Hear(h, c.phase, env(k));
    if o.done then g else UpdateHeard(g, o.ctrl, o.log, env, k + 1)
  }

  lemma NoteSnoc(log: seq<Event>, e: Event)
    ensures DeedsIn(log + [e]) == Note(DeedsIn(log), BegunIn(log), e)
    ensures BegunIn(log + [e]) == (if e.Accepted? then false else e.NotifySettleBegin? || BegunIn(log))
  {
    assert (log + [e])[..|log|] == log;
  }

  // ----- the invariant

  ghost predicate Found(h: Heard) {
    h.selected || h.busy
  }

  /** All that a guide operation has to have done before it settles. */
  ghost predicate Ready(forced: bool, d: Deeds, h: Heard) {
    && h.connected && Found(h)
    && (h.calibrated || (h.guiding && !forced))
    && (d.started || (h.busy && !forced))
    && (forced ==> d.cleared)
    && !d.refused
  }

  /** Where a guide operation stands in each phase. */
  ghost predicate GuideStands(p: Phase, forced: bool, d: Deeds, begun: bool, h: Heard, succeeded: bool) {
    match p
    case Idle => true
    case Setup => d == NO_DEEDS && !begun && h == NOTHING
    case AttemptStart | SelectStar | WaitSelected => !d.refused && !begun && (p.AttemptStart? || h.connected)
    case Calibrate => !d.refused && !begun && h.connected && Found(h)
    case CalibrationWait =>
      && !d.refused && !begun && h.connected && Found(h)
      && (forced ==> d.cleared) && (d.started || (h.busy && !forced))
    case GuidePhase => !d.refused && !begun && h.connected && Found(h) && h.calibrated && (forced ==> d.cleared)
    case SettleBegin => Ready(forced, d, h) && !begun
    case SettleWait => Ready(forced, d, h) && begun
    case Finish => succeeded ==> Ready(forced, d, h) && begun
  }

  ghost predicate DitherStands(p: Phase, d: Deeds, begun: bool, succeeded: bool) {
    match p
    case Idle => true
    case SettleBegin => !d.refused && !begun
    case SettleWait => !d.refused && begun
    case Finish => succeeded ==> !d.refused && begun
    case _ => false
  }

  /** What is never excused, in the log of the operation accepted last. */
  ghost predicate Excused(forced: bool, d: Deeds, h: Heard) {
    && !d.unjustified
    && (d.op.OpGuide? ==> (d.bare ==> h.busy && !forced) && (d.uncleared ==> !forced))
  }

  ghost predicate Careful(c: Ctrl, d: Deeds, begun: bool, h: Heard) {
    && (c.phase != Idle ==> d.op == c.op)
    && Excused(c.start.forceCalibration, d, h)
    && match c.op
       case OpGuide => GuideStands(c.phase, c.start.forceCalibration, d, begun, h, c.succeeded)
       case OpDither => DitherStands(c.phase, d, begun, c.succeeded)
  }

  ghost predicate CarefulLog(c: Ctrl, log: seq<Event>, h: Heard) {
    Careful(c, DeedsIn(log), BegunIn(log), h)
  }

  predicate Plain(e: Event) {
    !e.Accepted? && !e.StartGuiding? && !e.ClearCalibration? && !e.NotifySettleBegin? && !e.NotifySettleDone?
  }

  lemma PlainSnoc(log: seq<Event>, e: Event)
    requires Plain(e)
    ensures DeedsIn(log + [e]) == DeedsIn(log) && BegunIn(log + [e]) == BegunIn(log)
  {
    NoteSnoc(log, e);
  }

  ghost predicate SameDeeds(log: seq<Event>, log': seq<Event>) {
    DeedsIn(log') == DeedsIn(log) && BegunIn(log') == BegunIn(log)
  }

  lemma AttemptStartPlain(c: Ctrl, log: seq<Event>, w: World)
    ensures SameDeeds(log, PassAttemptStart(c, log, w).log)
  {
    hide DeedsIn, BegunIn;
    var reset := log + [ResetGuider];
    var exposed := reset + [ResetAutoExposure];
    PlainSnoc(log, ResetGuider);
    PlainSnoc(reset, ResetAutoExposure);
    PlainSnoc(exposed, StartCapturing);
    PlainSnoc(log, ResetAutoExposure);
    assert PassAttemptStart(c, log, w).log in {log, exposed + [StartCapturing], log + [ResetAutoExposure]};
  }

  lemma AttemptStartControls(c: Ctrl, log: seq<Event>, w: World)
    ensures var d, at := PassAttemptStart(c, log, w).ctrl, w.guiderState;
            && d.op == c.op && d.start == c.start
            && ((d.phase.Finish? && !d.succeeded)
                || (w.gearConnected
                    && match d.phase
                       case SelectStar => true
                       case Calibrate => at.Selected? || (IsCalibratingOrGuiding(at) && c.start.forceCalibration)
                       case CalibrationWait => IsCalibratingOrGuiding(at) && !c.start.forceCalibration
                       case SettleBegin => (at.Calibrated? || at.Guiding?) && !c.start.forceCalibration
                       case _ => false))
  {
  }

  lemma AttemptStartCareful(c: Ctrl, log: seq<Event>, h: Heard, w: World)
    requires CarefulLog(c, log, h) && c.phase.AttemptStart?
    ensures var o := PassAttemptStart(c, log, w); CarefulLog(o.ctrl, o.log, Hear(h, c.phase, w))
  {
    hide DeedsIn, BegunIn, PassAttemptStart;
    AttemptStartPlain(c, log, w);
    AttemptStartControls(c, log, w);
  }

  lemma SelectStarPlain(c: Ctrl, log: seq<Event>, w: World)
    ensures SameDeeds(log, PassSelectStar(c, log, w).log)
  {
    hide DeedsIn, BegunIn;
    var e := AutoSelect(!w.autoSelectFails);
    PlainSnoc(log, e);
    PlainSnoc(log + [e], ResetGuider);
    assert PassSelectStar(c, log, w).log in {log + [e], log + [e] + [ResetGuider]};
  }

  lemma SelectStarControls(c: Ctrl, log: seq<Event>, w: World)
    ensures var d := PassSelectStar(c, log, w).ctrl;
            && d.op == c.op && d.start.forceCalibration == c.start.forceCalibration
            && d.phase in {WaitSelected, AttemptStart, Finish} && (d.phase.Finish? ==> !d.succeeded)
  {
  }

  lemma SelectStarCareful(c: Ctrl, log: seq<Event>, h: Heard, w: World)
    requires CarefulLog(c, log, h) && c.phase.SelectStar?
    ensures var o := PassSelectStar(c, log, w); CarefulLog(o.ctrl, o.log, Hear(h, c.phase, w))
  {
    hide DeedsIn, BegunIn, PassSelectStar;
    SelectStarPlain(c, log, w);
    SelectStarControls(c, log, w);
  }

  lemma CalibrateDeeds(c: Ctrl, log: seq<Event>, w: World)
    ensures var l, d := PassCalibrate(c, log, w).log, DeedsIn(log);
            && DeedsIn(l) == d.(cleared := d.cleared || c.start.forceCalibration,
                                started := d.started || (!w.calibrated && !w.startGuidingFails),
                                refused := d.refused || (!w.calibrated && w.startGuidingFails))
            && BegunIn(l) == BegunIn(log)
  {
    hide DeedsIn, BegunIn;
    var cleared := if c.start.forceCalibration then log + [ClearCalibration] else log;
    NoteSnoc(log, ClearCalibration);
    if !w.calibrated {
      var stuck := if c.start.useStickyLock then cleared + [SetSticky(true)] else cleared;
      PlainSnoc(cleared, SetSticky(true));
      var tried := stuck + [StartGuiding(!w.startGuidingFails)];
      NoteSnoc(stuck, StartGuiding(!w.startGuidingFails));
      PlainSnoc(tried, SetSticky(w.lockPosIsSticky));
      assert PassCalibrate(c, log, w).log in {tried, tried + [SetSticky(w.lockPosIsSticky)]}
             || !c.start.useStickyLock;
    }
  }

  lemma CalibrateControls(c: Ctrl, log: seq<Event>, w: World)
    ensures var d := PassCalibrate(c, log, w).ctrl;
            && d.op == c.op && d.start.forceCalibration == c.start.forceCalibration
            && d.phase == (if w.calibrated then GuidePhase else if w.startGuidingFails then Finish else CalibrationWait)
            && (d.phase.Finish? ==> !d.succeeded)
  {
  }

  lemma CalibrateCareful(c: Ctrl, log: seq<Event>, h: Heard, w: World)
    requires CarefulLog(c, log, h) && c.phase.Calibrate?
    ensures var o := PassCalibrate(c, log, w); CarefulLog(o.ctrl, o.log, Hear(h, c.phase, w))
  {
    hide DeedsIn, BegunIn, PassCalibrate;
    CalibrateDeeds(c, log, w);
    CalibrateControls(c, log, w);
  }

  lemma CalibrationWaitCareful(c: Ctrl, log: seq<Event>, h: Heard, w: World)
    requires CarefulLog(c, log, h) && c.phase.CalibrationWait?
    ensures var o := PassCalibrationWait(c, log, w); CarefulLog(o.ctrl, o.log, Hear(h, c.phase, w))
  {
    hide DeedsIn, BegunIn;
    PlainSnoc(log, SetSticky(c.start.saveSticky));
  }

  lemma GuideCareful(c: Ctrl, log: seq<Event>, h: Heard, w: World)
    requires CarefulLog(c, log, h) && c.phase.GuidePhase?
    ensures var o := PassGuide(c, log, w); CarefulLog(o.ctrl, o.log, Hear(h, c.phase, w))
  {
    hide DeedsIn, BegunIn;
    NoteSnoc(log, StartGuiding(!w.startGuidingFails));
  }

  lemma SettleBeginCareful(c: Ctrl, log: seq<Event>, h: Heard, w: World)
    requires CarefulLog(c, log, h) && c.phase.SettleBegin?
    ensures var o := PassSettleBegin(c, log, w); CarefulLog(o.ctrl, o.log, Hear(h, c.phase, w))
  {
    hide DeedsIn, BegunIn;
    NoteSnoc(log, NotifySettleBegin);
    PlainSnoc(log + [NotifySettleBegin], SetDecMode(DecAuto));
  }

  lemma SettleCareful(c: Ctrl, log: seq<Event>, h: Heard, w: World, v: Verdict)
    requires CarefulLog(c, log, h) && c.phase.SettleWait?
    ensures var o := SettleOutcome(c, log, w, v); CarefulLog(o.ctrl, o.log, Hear(h, c.phase, w))
  {
    hide DeedsIn, BegunIn;
    PlainSnoc(log, NotifySettling(w.guideError, TimeInRange(c.params, c.settling, w),
                                  c.params.settleTimeSec, w.locked));
  }

  lemma FinishCareful(c: Ctrl, log: seq<Event>, h: Heard, w: World)
    requires CarefulLog(c, log, h) && c.phase.Finish?
    ensures var o := PassFinish(c, log); CarefulLog(o.ctrl, o.log, Hear(h, c.phase, w))
  {
    hide DeedsIn, BegunIn;
    var restored := if c.dec.overrideDecGuideMode then log + [SetDecMode(c.dec.saveDecGuideMode)] else log;
    PlainSnoc(log, SetDecMode(c.dec.saveDecGuideMode));
    NoteSnoc(restored, NotifySettleDone(c.succeeded, if c.succeeded then "" else c.errorMsg,
                                        c.settling.frameCount, c.settling.droppedFrameCount));
  }

  lemma QuietCareful(c: Ctrl, log: seq<Event>, h: Heard, w: World)
    requires CarefulLog(c, log, h) && (c.phase.Idle? || c.phase.Setup? || c.phase.WaitSelected?)
    ensures var o := Pass(c, log, w); CarefulLog(o.ctrl, o.log, Hear(h, c.phase, w))
  {
    hide DeedsIn, BegunIn;
  }

  lemma PassCareful(c: Ctrl, log: seq<Event>, h: Heard, w: World)
    requires CarefulLog(c, log, h)
    ensures var o := Pass(c, log, w); CarefulLog(o.ctrl, o.log, Hear(h, c.phase, w))
  {
    hide CarefulLog, Hear, PassAttemptStart, PassSelectStar, PassCalibrate, PassCalibrationWait, PassGuide,
         PassSettleBegin, SettleOutcome, PassFinish;
    match c.phase {
      case AttemptStart => AttemptStartCareful(c, log, h, w);
      case SelectStar => SelectStarCareful(c, log, h, w);
      case Calibrate => CalibrateCareful(c, log, h, w);
      case CalibrationWait => CalibrationWaitCareful(c, log, h, w);
      case GuidePhase => GuideCareful(c, log, h, w);
      case SettleBegin => SettleBeginCareful(c, log, h, w);
      case SettleWait => SettleCareful(c, log, h, w, StateVerdict(c.params, c.settling, w));
      case Finish => FinishCareful(c, log, h, w);
      case _ => QuietCareful(c, log, h, w);
    }
  }

  lemma {:induction false} UpdateCareful(c: Ctrl, log: seq<Event>, h: Heard, env: nat -> World, k: nat)
    requires CarefulLog(c, log, h)
    ensures var u := Update(c, log, env, k); CarefulLog(u.ctrl, u.log, UpdateHeard(h, c, log, env, k))
    decreases Rank(c.phase)
  {
    hide CarefulLog, Hear;
    PassCareful(c, log, h, env(k));
    var o := Pass(c, log, env(k));
    if !o.done {
      UpdateCareful(o.ctrl, o.log, Hear(h, c.phase, env(k)), env, k + 1);
    }
  }

  // ----- runs

  /** The controller and log just after a guide request has been accepted, before its first update. */
  function GuideAccepted(s: System, r: GuideRequest): System {
    var start := s.ctrl.start.(forceCalibration := r.forceRecal, useStickyLock := r.useStickyLock);
    System(s.ctrl.(phase := Setup, op := OpGuide, params := r.settle, start := start), s.log + [Accepted(OpGuide)])
  }

  /** The answers heard by the operation accepted last, after one more command; a dither asks for none of them. */
  function ExecHeard(h: Heard, s: System, cmd: Command): Heard {
    match cmd
    case GuideCmd(r, env) =>
      var g := GuideAccepted(s, r);
      if s.ctrl.phase == Idle then UpdateHeard(NOTHING, g.ctrl, g.log, env, 0) else h
    case FrameCmd(env) => UpdateHeard(h, s.ctrl, s.log, env, 0)
    case DitherCmd(_, _) => h
    case CompatCmd(_, _, _) => h
    case AbortCmd(_, _) => h
  }

  function RunHeard(s: System, cmds: seq<Command>): Heard {
    if cmds == [] then NOTHING
    else ExecHeard(RunHeard(s, cmds[..|cmds| - 1]), Run(s, cmds[..|cmds| - 1]), cmds[|cmds| - 1])
  }

  lemma GuideExecCareful(s: System, r: GuideRequest, env: nat -> World, h: Heard)
    requires CarefulLog(s.ctrl, s.log, h)
    ensures var t := Exec(s, GuideCmd(r, env)); CarefulLog(t.ctrl, t.log, ExecHeard(h, s, GuideCmd(r, env)))
  {
    hide DeedsIn, BegunIn, Update, UpdateHeard;
    if s.ctrl.phase == Idle {
      var g := GuideAccepted(s, r);
      NoteSnoc(s.log, Accepted(OpGuide));
      UpdateCareful(g.ctrl, g.log, NOTHING, env, 0);
    }
  }

  lemma DitherHearsNothing(h: Heard, c: Ctrl, log: seq<Event>, env: nat -> World, k: nat)
    requires c.phase.SettleBegin? || c.phase.Finish?
    ensures UpdateHeard(h, c, log, env, k) == h
  {
  }

  lemma DitherExecCareful(s: System, r: DitherRequest, env: nat -> World, h: Heard)
    requires CarefulLog(s.ctrl, s.log, h)
    ensures var t := Exec(s, DitherCmd(r, env)); CarefulLog(t.ctrl, t.log, h)
  {
    hide DeedsIn, BegunIn, Update, UpdateHeard;
    var c := s.ctrl;
    if c.phase == Idle {
      var e := Dithered(r.pixels, RaOnly(c.dec.mode, r));
      PlainSnoc(s.log, e);
      NoteSnoc(s.log + [e], Accepted(OpDither));
      if !r.fails {
        var dec := DecState(c.dec.mode, if Consults(r) then c.dec.mode else DecNone, Overrides(c.dec.mode, r));
        var d, l := c.(phase := SettleBegin, op := OpDither, params := r.settle, dec := dec),
                    s.log + [e] + [Accepted(OpDither)];
        UpdateCareful(d, l, h, env, 0);
        DitherHearsNothing(h, d, l, env, 0);
      }
    }
  }

  lemma AbortCareful(s: System, reason: string, env: nat -> World, h: Heard)
    requires CarefulLog(s.ctrl, s.log, h)
    ensures var t := AbortOp(s, reason, env); CarefulLog(t.ctrl, t.log, h)
  {
    hide DeedsIn, BegunIn, Update, UpdateHeard;
    if s.ctrl.phase != Idle {
      UpdateCareful(Fail(s.ctrl, reason), s.log, h, env, 0);
      DitherHearsNothing(h, Fail(s.ctrl, reason), s.log, env, 0);
    }
  }

  lemma ExecCareful(s: System, cmd: Command, h: Heard)
    requires CarefulLog(s.ctrl, s.log, h)
    ensures var t := Exec(s, cmd); CarefulLog(t.ctrl, t.log, ExecHeard(h, s, cmd))
  {
    hide CarefulLog, Update, UpdateHeard, GuideOp, DitherOp, AbortOp;
    match cmd {
      case GuideCmd(r, env) => GuideExecCareful(s, r, env, h);
      case DitherCmd(r, env) => DitherExecCareful(s, r, env, h);
      case CompatCmd(r, env0, env) =>
        AbortCareful(s, "manual or phd1-style dither", env0, h);
        DitherExecCareful(AbortOp(s, "manual or phd1-style dither", env0), CompatRequest(r), env, h);
      case AbortCmd(reason, env) => AbortCareful(s, reason, env, h);
      case FrameCmd(env) => UpdateCareful(s.ctrl, s.log, h, env, 0);
    }
  }

  lemma {:induction false} RunCareful(s: System, cmds: seq<Command>)
    requires Fresh(s)
    ensures var e := Run(s, cmds); CarefulLog(e.ctrl, e.log, RunHeard(s, cmds))
  {
    hide Exec, ExecHeard;
    if cmds == [] {
    } else {
      hide CarefulLog;
      var n := |cmds| - 1;
      RunCareful(s, cmds[..n]);
      ExecCareful(Run(s, cmds[..n]), cmds[n], RunHeard(s, cmds[..n]));
    }
  }

  // ----- the promises, on every run

  /**
   No guide operation goes on to settle without having started guiding since it was accepted, unless the guider answered
   that it was calibrating or guiding already and no calibration was forced; with a forced calibration the old one has
   been cleared first. Settling never follows a refusal to start, and success is never reported without settling.
   */
  lemma GuidingWasStarted(s: System, cmds: seq<Command>)
    requires Fresh(s)
    ensures var e, h := Run(s, cmds), RunHeard(s, cmds); var d := DeedsIn(e.log);
            && !d.unjustified
            && (d.op.OpGuide? && d.bare ==> h.busy && !e.ctrl.start.forceCalibration)
            && (d.op.OpGuide? && d.uncleared ==> !e.ctrl.start.forceCalibration)
  {
    RunCareful(s, cmds);
  }

  /**
   While a guide operation settles all gear was found connected, a star was selected or the guider was busy with one,
   the mounts were found calibrated or the guider was past calibration, and the program did not refuse to guide.
   */
  lemma SettlingIsReady(s: System, cmds: seq<Command>)
    requires Fresh(s)
    ensures var e, h := Run(s, cmds), RunHeard(s, cmds); var d := DeedsIn(e.log);
            e.ctrl.phase == SettleWait && e.ctrl.op == OpGuide ==>
              && d.op == OpGuide && h.connected && (h.selected || h.busy)
              && (h.calibrated || h.guiding) && (d.started || h.busy) && !d.refused
              && (e.ctrl.start.forceCalibration ==> d.cleared && d.started && h.calibrated)
  {
    RunCareful(s, cmds);
  }

  // ----- what a request does when the program goes along with it

  function Cleared(forced: bool): seq<Event> {
    if forced then [ClearCalibration] else []
  }

  /** From a selected star: clear if forced, and start guiding. */
  ghost predicate Starts(r: GuideRequest, log: seq<Event>, u: System, was: Ctrl) {
    && u.log == log + Cleared(r.forceRecal) + [StartGuiding(true)]
    && u.ctrl.phase == SettleBegin && u.ctrl.op == OpGuide && u.ctrl.params == r.settle
    && u.ctrl.dec.mode == was.dec.mode && !u.ctrl.dec.overrideDecGuideMode
  }

  ghost predicate Operating(c: Ctrl, r: GuideRequest) {
    && c.op == OpGuide && c.params == r.settle && c.start.forceCalibration == r.forceRecal
    && c.start.useStickyLock == r.useStickyLock && !c.dec.overrideDecGuideMode
  }

  lemma CalibratePassStarts(c: Ctrl, log: seq<Event>, r: GuideRequest, env: nat -> World, k: nat)
    requires c.phase == Calibrate && Operating(c, r)
    requires env(k).calibrated && !env(k + 1).startGuidingFails
    ensures Starts(r, log, Update(c, log, env, k), c)
  {
    var o := Pass(c, log, env(k));
    assert o.ctrl.phase == GuidePhase && o.log == log + Cleared(r.forceRecal);
    var p := Pass(o.ctrl, o.log, env(k + 1));
    assert p.done;
    assert Update(o.ctrl, o.log, env, k + 1) == System(p.ctrl, p.log);
  }

  /** A request with capture running and a star selected and calibrated starts guiding at once, and settles next. */
  lemma GuideFromStar(s: System, r: GuideRequest, env: nat -> World)
    requires s.ctrl.phase == Idle
    requires env(1).gearConnected && env(1).captureActive && env(1).guiderState == Selected
    requires env(2).calibrated && !env(3).startGuidingFails
    ensures var o := GuideOp(s, r, env);
            o.ok && Starts(r, s.log + [Accepted(OpGuide)], System(o.ctrl, o.log), s.ctrl)
  {
    var g := GuideAccepted(s, r);
    var a := PassSetup(g.ctrl, g.log);
    assert Pass(g.ctrl, g.log, env(0)) == a;
    var b := Pass(a.ctrl, a.log, env(1));
    assert b == Outcome(a.ctrl.(phase := Calibrate), g.log, false);
    CalibratePassStarts(b.ctrl, g.log, r, env, 2);
    assert Update(a.ctrl, a.log, env, 1) == Update(b.ctrl, b.log, env, 2);
    assert Update(g.ctrl, g.log, env, 0) == Update(a.ctrl, a.log, env, 1);
  }

  /** A request without capture running resets the guider and the exposure, starts capturing and waits for a frame. */
  lemma GuideStartsCapture(s: System, r: GuideRequest, env: nat -> World)
    requires s.ctrl.phase == Idle
    requires env(1).gearConnected && !env(1).captureActive && env(1).cameraConnected
    requires !IsCalibratingOrGuiding(env(1).guiderState)
    ensures var o := GuideOp(s, r, env);
            && o.ok && o.ctrl.phase == SelectStar && Operating(o.ctrl, r)
            && o.ctrl.start.autoFindAttemptsRemaining == 3
            && o.log == s.log + [Accepted(OpGuide)] + [ResetGuider] + [ResetAutoExposure] + [StartCapturing]
  {
    var g := GuideAccepted(s, r);
    var a := PassSetup(g.ctrl, g.log);
    var b := Pass(a.ctrl, a.log, env(1));
    assert b.done;
    assert Update(a.ctrl, a.log, env, 1) == System(b.ctrl, b.log);
    assert Update(g.ctrl, g.log, env, 0) == Update(a.ctrl, a.log, env, 1);
  }

  lemma AttemptReached(s: System, r: GuideRequest, env: nat -> World)
    requires s.ctrl.phase == Idle
    ensures var o, a := GuideOp(s, r, env), PassSetup(GuideAccepted(s, r).ctrl, GuideAccepted(s, r).log);
            && o.ok && System(o.ctrl, o.log) == Update(a.ctrl, a.log, env, 1)
            && a.ctrl.phase == AttemptStart && a.log == s.log + [Accepted(OpGuide)] && Operating(a.ctrl, r)
            && a.ctrl.settling == s.ctrl.settling && a.ctrl.start.autoFindAttemptsRemaining == 3
  {
    var g := GuideAccepted(s, r);
    var a := PassSetup(g.ctrl, g.log);
    assert Pass(g.ctrl, g.log, env(0)) == a;
  }

  lemma FailedUpdate(c: Ctrl, log: seq<Event>, msg: string, env: nat -> World, k: nat)
    requires !c.dec.overrideDecGuideMode
    ensures var u := Update(Fail(c, msg), log, env, k);
            && u.ctrl.phase == Idle
            && u.log == log + [NotifySettleDone(false, msg, c.settling.frameCount, c.settling.droppedFrameCount)]
  {
    var p := Pass(Fail(c, msg), log, env(k));
    assert Update(Fail(c, msg), log, env, k) == System(p.ctrl, p.log);
  }

  /** A request with gear missing, or that has to start capturing without a camera, is answered with the reason. */
  lemma GuideRefused(s: System, r: GuideRequest, env: nat -> World)
    requires s.ctrl.phase == Idle
    requires !env(1).gearConnected
             || (!env(1).captureActive && !env(1).cameraConnected && !IsCalibratingOrGuiding(env(1).guiderState))
    ensures var o := GuideOp(s, r, env); var c := s.ctrl.settling;
            && o.ctrl.phase == Idle
            && o.log == s.log + [Accepted(OpGuide)]
                 + [NotifySettleDone(false, if !env(1).gearConnected then "all equipment must be connected first"
                                            else "unable to start capturing", c.frameCount, c.droppedFrameCount)]
  {
    AttemptReached(s, r, env);
    var a := PassSetup(GuideAccepted(s, r).ctrl, GuideAccepted(s, r).log);
    var b := Pass(a.ctrl, a.log, env(1));
    FailedUpdate(a.ctrl, a.log, b.ctrl.errorMsg, env, 2);
  }

  /** A request that finds the guider at it joins in, settling at once or waiting for the calibration, unless forced. */
  lemma GuideJoins(s: System, r: GuideRequest, env: nat -> World)
    requires s.ctrl.phase == Idle && env(1).gearConnected && IsCalibratingOrGuiding(env(1).guiderState)
    requires !r.forceRecal
    ensures var o, at := GuideOp(s, r, env), env(1).guiderState;
            if at.Calibrated? || at.Guiding?
            then o.ctrl.phase == SettleWait && o.log == s.log + [Accepted(OpGuide)] + [NotifySettleBegin]
            else o.ctrl.phase == CalibrationWait && o.log == s.log + [Accepted(OpGuide)]
  {
    AttemptReached(s, r, env);
    var a := PassSetup(GuideAccepted(s, r).ctrl, GuideAccepted(s, r).log);
    var b := Pass(a.ctrl, a.log, env(1));
    if b.done {
      assert Update(a.ctrl, a.log, env, 1) == System(b.ctrl, b.log);
    } else {
      var p := Pass(b.ctrl, b.log, env(2));
      assert p.done && Update(b.ctrl, b.log, env, 2) == System(p.ctrl, p.log);
      assert Update(a.ctrl, a.log, env, 1) == Update(b.ctrl, b.log, env, 2);
    }
  }

  /** Without a star one is looked for at once, or after the exposure has been reset if it is automatic. */
  lemma GuideLooksForStar(s: System, r: GuideRequest, env: nat -> World)
    requires s.ctrl.phase == Idle && env(1).gearConnected && env(1).captureActive && !env(2).autoSelectFails
    requires !IsCalibratingOrGuiding(env(1).guiderState) && env(1).guiderState != Selected
    ensures var o := GuideOp(s, r, env);
            if env(1).autoExposure
            then o.ctrl.phase == SelectStar && o.log == s.log + [Accepted(OpGuide)] + [ResetAutoExposure]
            else o.ctrl.phase == WaitSelected && o.log == s.log + [Accepted(OpGuide)] + [AutoSelect(true)]
  {
    AttemptReached(s, r, env);
    var a := PassSetup(GuideAccepted(s, r).ctrl, GuideAccepted(s, r).log);
    var b := Pass(a.ctrl, a.log, env(1));
    if b.done {
      assert Update(a.ctrl, a.log, env, 1) == System(b.ctrl, b.log);
    } else {
      var p := Pass(b.ctrl, b.log, env(2));
      assert p.done && Update(b.ctrl, b.log, env, 2) == System(p.ctrl, p.log);
      assert Update(a.ctrl, a.log, env, 1) == Update(b.ctrl, b.log, env, 2);
    }
  }

  /** A star that is found but not selected is waited for, three frames long in all. */
  lemma {:induction false} SelectionWaits(c: Ctrl, log: seq<Event>, found: World, ws: seq<World>)
    requires c.phase == SelectStar && !found.autoSelectFails && |ws| <= 3
    requires forall i :: 0 <= i < |ws| ==> ws[i].guiderState != Selected
    ensures var t := Update(c, log, (k: nat) => found, 0); var e := Feed(t, ws);
            && e.log == log + [AutoSelect(true)]
            && e.ctrl == c.(phase := if |ws| < 3 then WaitSelected else AttemptStart,
                            start := c.start.(waitSelectedRemaining := 3 - |ws|))
  {
    if ws == [] {
      var o := Pass(c, log, found);
      assert o.done;
    } else {
      SelectionWaits(c, log, found, ws[..|ws| - 1]);
    }
  }

  /** A star that is found is waited for, and once it is selected guiding starts. */
  lemma StarFoundAndSelected(c: Ctrl, log: seq<Event>, r: GuideRequest, found: World, selected: World)
    requires c.phase == SelectStar && Operating(c, r) && !found.autoSelectFails
    requires selected.guiderState == Selected && selected.calibrated && !selected.startGuidingFails
    ensures Starts(r, log + [AutoSelect(true)], Feed(System(c, log), [found, selected]), c)
  {
    var o := Pass(c, log, found);
    assert o.done && o.ctrl.phase == WaitSelected;
    assert Update(c, log, (k: nat) => found, 0) == System(o.ctrl, o.log);
    FeedTwo(System(c, log), found, selected);
    var p := Pass(o.ctrl, o.log, selected);
    assert p == Outcome(o.ctrl.(phase := Calibrate), o.log, false);
    CalibratePassStarts(p.ctrl, p.log, r, (k: nat) => selected, 1);
    assert Update(o.ctrl, o.log, (k: nat) => selected, 0) == Update(p.ctrl, p.log, (k: nat) => selected, 1);
  }

  lemma FeedTwo(s: System, v: World, w: World)
    ensures var t := Update(s.ctrl, s.log, (k: nat) => v, 0);
            Feed(s, [v, w]) == Update(t.ctrl, t.log, (k: nat) => w, 0)
  {
    assert [v, w][..1] == [v] && [v][..0] == [];
    assert Feed(s, [v]) == Update(s.ctrl, s.log, (k: nat) => v, 0);
  }

  /** The third failure to find a star fails the request. */
  lemma ThirdFailureGivesUp(c: Ctrl, log: seq<Event>, w: World)
    requires c.phase == SelectStar && w.autoSelectFails && !c.dec.overrideDecGuideMode
    ensures var u := Update(c, log, (k: nat) => w, 0); var left := c.start.autoFindAttemptsRemaining - 1;
            if left == 0 then
              && u.ctrl.phase == Idle
              && u.log == log + [AutoSelect(false)]
                          + [NotifySettleDone(false, "failed to find a suitable guide star",
                                              c.settling.frameCount, c.settling.droppedFrameCount)]
            else
              && u.ctrl == c.(phase := AttemptStart, start := c.start.(autoFindAttemptsRemaining := left))
              && u.log == log + [AutoSelect(false)] + [ResetGuider]
  {
    var o := Pass(c, log, w);
    if !o.done {
      FinishUpdate(o.ctrl, o.log, (k: nat) => w, 1);
      var p := Pass(o.ctrl, o.log, w);
      assert Update(o.ctrl, o.log, (k: nat) => w, 1) == System(p.ctrl, p.log);
    }
  }

  // ----- calibrating with a sticky lock position

  ghost predicate AllUncalibrated(ws: seq<World>) {
    forall i :: 0 <= i < |ws| ==> !ws[i].calibrated
  }

  /** Waiting for the calibration does nothing. */
  lemma {:induction false} CalibrationWaits(s: System, ws: seq<World>)
    requires s.ctrl.phase == CalibrationWait && AllUncalibrated(ws)
    ensures Feed(s, ws) == s
  {
    if ws == [] {
    } else {
      CalibrationWaits(s, ws[..|ws| - 1]);
    }
  }

  function Stuck(sticky: bool, on: bool): seq<Event> {
    if sticky then [SetSticky(on)] else []
  }

  /**
   A calibration: the old one is cleared if forced, the lock position is made sticky if the request asks for it, guiding
   is started, and once the mounts are calibrated, after any number of frames, the stickiness is what it was before and
   settling begins.
   */
  lemma CalibratesAndSettles(c: Ctrl, log: seq<Event>, r: GuideRequest, w: World, ws: seq<World>, last: World)
    requires c.phase == Calibrate && Operating(c, r) && !w.calibrated && !w.startGuidingFails
    requires AllUncalibrated(ws) && last.calibrated
    ensures var t := Update(c, log, (k: nat) => w, 0);
            var e := Feed(t, ws + [last]);
            && e.ctrl.phase == SettleWait
            && e.log == log + Cleared(r.forceRecal) + Stuck(r.useStickyLock, true) + [StartGuiding(true)]
                        + Stuck(r.useStickyLock, w.lockPosIsSticky) + [NotifySettleBegin]
  {
    var o := Pass(c, log, w);
    var t := System(o.ctrl, o.log);
    assert o.done && t.ctrl.phase == CalibrationWait;
    assert Update(c, log, (k: nat) => w, 0) == t;
    assert t.log == log + Cleared(r.forceRecal) + Stuck(r.useStickyLock, true) + [StartGuiding(true)];
    CalibrationWaits(t, ws);
    assert (ws + [last])[..|ws|] == ws;
    var p := Pass(t.ctrl, t.log, last);
    assert p.ctrl.phase == SettleBegin && p.log == t.log + Stuck(r.useStickyLock, w.lockPosIsSticky);
    var q := Pass(p.ctrl, p.log, last);
    assert q.done && q.log == p.log + [NotifySettleBegin];
    assert Update(p.ctrl, p.log, (k: nat) => last, 1) == System(q.ctrl, q.log);
    assert Update(t.ctrl, t.log, (k: nat) => last, 0) == Update(p.ctrl, p.log, (k: nat) => last, 1);
  }

  /** A refusal to start is answered with the reason; a calibration that did not start leaves the stickiness alone. */
  lemma StartRefused(c: Ctrl, log: seq<Event>, r: GuideRequest, env: nat -> World, k: nat)
    requires c.phase == Calibrate && Operating(c, r)
    requires if env(k).calibrated then env(k + 1).startGuidingFails else env(k).startGuidingFails
    ensures var u, w := Update(c, log, env, k), env(k);
            var sticky := r.useStickyLock && !w.calibrated;
            && u.ctrl.phase == Idle
            && u.log == log + Cleared(r.forceRecal) + Stuck(sticky, true) + [StartGuiding(false)]
                        + Stuck(sticky, w.lockPosIsSticky)
                        + [NotifySettleDone(false, if w.calibrated then "could not start guiding"
                                                   else "could not start calibration",
                                            c.settling.frameCount, c.settling.droppedFrameCount)]
  {
    var w := env(k);
    var sticky := r.useStickyLock && !w.calibrated;
    var tried := log + Cleared(r.forceRecal) + Stuck(sticky, true) + [StartGuiding(false)];
    var o := Pass(c, log, w);
    if w.calibrated {
      assert o.log == log + Cleared(r.forceRecal) && o.ctrl.phase == GuidePhase;
      var p := Pass(o.ctrl, o.log, env(k + 1));
      assert p == Outcome(Fail(o.ctrl, "could not start guiding"), tried, false);
      FailedUpdate(o.ctrl, tried, "could not start guiding", env, k + 2);
      assert Update(o.ctrl, o.log, env, k + 1) == Update(p.ctrl, p.log, env, k + 2);
    } else {
      var d := o.ctrl.(phase := c.phase);
      assert o.log == tried + Stuck(sticky, w.lockPosIsSticky);
      FailedUpdate(d, o.log, "could not start calibration", env, k + 1);
    }
  }

  // ----- dithers

  /**
   A dither moves Dec exactly if Dec is guided in both directions while it settles: the mount is in AUTO then, having
   been there or being switched for the settling, which takes a one-way mode and settling that is not disabled. When
   Dec stays out of it the mode is left alone.
   */
  lemma DitherMovesDecOnlyIfGuided(s: System, r: DitherRequest, env: nat -> World)
    requires s.ctrl.phase == Idle
    ensures var o, mode := DitherOp(s, r, env), s.ctrl.dec.mode;
            && |o.log| > |s.log| && o.log[..|s.log|] == s.log
            && var e := o.log[|s.log|];
            && e.Dithered? && e.pixels == r.pixels
            && (!e.raOnly <==>
                  && !r.frameRaOnly && !r.forceRaOnly
                  && (r.hasScope ==> mode != DecNone && (mode != DecAuto ==> r.settle.settleTimeSec != 9999)))
            && (o.ok <==> !r.fails)
            && (o.ok && r.hasScope && !e.raOnly ==> o.ctrl.dec.mode == DecAuto)
            && (!o.ok || !r.hasScope || e.raOnly ==> o.ctrl.dec.mode == mode)
  {
    if !r.fails {
      var c := s.ctrl;
      var e := Dithered(r.pixels, RaOnly(c.dec.mode, r));
      var dec := DecState(c.dec.mode, if Consults(r) then c.dec.mode else DecNone, Overrides(c.dec.mode, r));
      var d, l := c.(phase := SettleBegin, op := OpDither, params := r.settle, dec := dec),
                  s.log + [e] + [Accepted(OpDither)];
      var p := Pass(d, l, env(0));
      assert Update(d, l, env, 0) == System(p.ctrl, p.log);
    }
  }

  /** A legacy dither, after the abort, leaves Dec out exactly if the program's setting or a mode but AUTO says so. */
  lemma CompatDithers(s: System, r: DitherRequest, env0: nat -> World, env: nat -> World, base: DecMode)
    requires Good(s, base)
    ensures var a := AbortOp(s, "manual or phd1-style dither", env0);
            var o := DitherCompatOp(s, r, env0, env);
            && |o.log| > |a.log| && o.log[..|a.log|] == a.log
            && o.log[|a.log|] == Dithered(r.pixels, r.frameRaOnly || (r.hasScope && a.ctrl.dec.mode != DecAuto))
            && o.ctrl.dec.mode == a.ctrl.dec.mode
  {
    hide AbortOp, DitherOp;
    AbortKeeps(s, "manual or phd1-style dither", env0, base);
    DitherMovesDecOnlyIfGuided(AbortOp(s, "manual or phd1-style dither", env0), CompatRequest(r), env);
  }

  /** No more than 9998 seconds pass from t0 to any frame, or from one frame to another. */
  ghost predicate Timely(t0: int, ws: seq<World>) {
    && (forall i :: 0 <= i < |ws| ==> Seconds(ws[i].now - t0) < 9999)
    && (forall i, j :: 0 <= i <= j < |ws| ==> Seconds(ws[j].now - ws[i].now) < 9999)
  }

  /** A legacy dither, which only knows a number of frames, is over after ten, and not before unless time runs out. */
  lemma CompatLastsTenFrames(s: System, r: DitherRequest, env0: nat -> World, env: nat -> World, ws: seq<World>,
                             base: DecMode)
    requires Good(s, base) && !r.fails
    requires Timely(env(0).now, ws)
    ensures var o := DitherCompatOp(s, r, env0, env);
            o.ok && (Feed(System(o.ctrl, o.log), ws).ctrl.phase == Idle <==> |ws| >= 10)
  {
    hide DitherOp, AbortOp, Feed, Verdicts, Good, Seconds, Answered, Stands, Timely;
    AbortKeeps(s, "manual or phd1-style dither", env0, base);
    var a, q := AbortOp(s, "manual or phd1-style dither", env0), CompatRequest(r);
    DitherSettles(a, q, env, ws);
    CompatVerdicts(q.settle, env(0).now, ws);
    DitherStarts(a, q, env);
  }

  lemma {:induction false} CompatVerdicts(p: SettleParams, t0: int, ws: seq<World>)
    requires p.settleTimeSec == 9999 && p.timeoutSec == 9999 && p.frames == 10
    requires Timely(t0, ws)
    ensures Verdicts(p, t0, ws).Pending? <==> |ws| < 10
  {
    hide Seconds;
    if ws == [] {
    } else {
      CompatVerdicts(p, t0, ws[..|ws| - 1]);
    }
  }
}
