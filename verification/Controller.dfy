/**
 The controller of guide and dither operations: a state machine whose update runs until it has to wait for the
 next camera frame. What the mount, camera, guider and clock answer during a pass is an arbitrary World.
 */
module Controller {

  datatype Phase =
    | Idle | Setup | AttemptStart | SelectStar | WaitSelected | Calibrate | CalibrationWait
    | GuidePhase | SettleBegin | SettleWait | Finish

  datatype Op = OpDither | OpGuide

  datatype DecMode = DecNone | DecAuto | DecNorth | DecSouth

  datatype GuiderState =
    | Uninitialized | Selecting | Selected | CalibratingPrimary | CalibratingSecondary
    | Calibrated | Guiding | Stop

  const SETTLING_TIME_DISABLED := 9999

  datatype SettleParams = SettleParams(tolerancePx: real, settleTimeSec: int, timeoutSec: int, frames: int)

  datatype StartState = StartState(
    forceCalibration: bool,
    useStickyLock: bool,
    haveSaveSticky: bool,
    saveSticky: bool,
    autoFindAttemptsRemaining: int,
    waitSelectedRemaining: int)

  /** The stopwatches are their start times in milliseconds. */
  datatype SettleState = SettleState(
    priorFrameInRange: bool,
    settleTimeout: int,
    settleInRange: int,
    frameCount: int,
    droppedFrameCount: int)

  /** mode is the Dec guide mode of the mount; the other two belong to the controller. */
  datatype DecState = DecState(mode: DecMode, saveDecGuideMode: DecMode, overrideDecGuideMode: bool)

  datatype Ctrl = Ctrl(
    phase: Phase,
    op: Op,
    params: SettleParams,
    start: StartState,
    settling: SettleState,
    dec: DecState,
    succeeded: bool,
    errorMsg: string)

  /** The answers of the rest of the program during one pass through the state machine. */
  datatype World = World(
    gearConnected: bool,
    guiderState: GuiderState,
    captureActive: bool,
    cameraConnected: bool,
    autoExposure: bool,
    autoSelectFails: bool,
    calibrated: bool,
    lockPosIsSticky: bool,
    startGuidingFails: bool,
    locked: bool,
    guideError: real,
    aoBump: bool,
    now: int)

  /** What the controller does to the rest of the program, in order. */
  datatype Event =
    | Accepted(op: Op)
    | Dithered(pixels: real, raOnly: bool)
    | StartCapturing
    | ResetAutoExposure
    | AutoSelect(ok: bool)
    | ResetGuider
    | ClearCalibration
    | SetSticky(sticky: bool)
    | StartGuiding(ok: bool)
    | NotifySettleBegin
    | SetDecMode(mode: DecMode)
    | NotifySettling(distance: real, timeMs: int, settleTimeSec: int, locked: bool)
    | NotifySettleDone(ok: bool, error: string, frames: int, dropped: int)

  /** A controller, the log of what it has done, and whether the update is to wait for the next frame. */
  datatype Outcome = Outcome(ctrl: Ctrl, log: seq<Event>, done: bool)

  predicate IsCalibratingOrGuiding(g: GuiderState) {
    g.CalibratingPrimary? || g.CalibratingSecondary? || g.Calibrated? || g.Guiding?
  }

  /** Division of milliseconds to seconds, truncating toward zero. */
  function Seconds(ms: int): int {
    if ms >= 0 then ms / 1000 else -((-ms) / 1000)
  }

  function Fail(c: Ctrl, msg: string): Ctrl {
    c.(phase := Finish, succeeded := false, errorMsg := msg)
  }

  function Succeed(c: Ctrl): Ctrl {
    c.(phase := Finish, succeeded := true)
  }

  // ----- one pass through the state machine

  function PassAttemptStart(c: Ctrl, log: seq<Event>, w: World): (o: Outcome)
    ensures !o.done ==> o.ctrl.phase in {Finish, Calibrate, SettleBegin, SelectStar}
  {
    if !w.gearConnected then Outcome(Fail(c, "all equipment must be connected first"), log, false)
    else if IsCalibratingOrGuiding(w.guiderState) then
      if c.start.forceCalibration then Outcome(c.(phase := Calibrate), log, false)
      else if w.guiderState.Calibrated? || w.guiderState.Guiding? then Outcome(c.(phase := SettleBegin), log, false)
      else Outcome(c.(phase := CalibrationWait), log, true)
    else if !w.captureActive then
      if !w.cameraConnected then Outcome(Fail(c, "unable to start capturing"), log, false)
      else Outcome(c.(phase := SelectStar), log + [ResetGuider] + [ResetAutoExposure] + [StartCapturing], true)
    else if w.guiderState.Selected? then Outcome(c.(phase := Calibrate), log, false)
    else
      Outcome(c.(phase := SelectStar), if w.autoExposure then log + [ResetAutoExposure] else log, w.autoExposure)
  }

  function PassSelectStar(c: Ctrl, log: seq<Event>, w: World): (o: Outcome)
    ensures !o.done ==> o.ctrl.phase == Finish
  {
    var tried := log + [AutoSelect(!w.autoSelectFails)];
    if w.autoSelectFails then
      var left := c.start.autoFindAttemptsRemaining - 1;
      var d := c.(start := c.start.(autoFindAttemptsRemaining := left));
      if left == 0 then Outcome(Fail(d, "failed to find a suitable guide star"), tried, false)
      else Outcome(d.(phase := AttemptStart), tried + [ResetGuider], true)
    else
      Outcome(c.(phase := WaitSelected, start := c.start.(waitSelectedRemaining := 3)), tried, true)
  }

  function PassWaitSelected(c: Ctrl, log: seq<Event>, w: World): (o: Outcome)
    ensures !o.done ==> o.ctrl.phase == Calibrate
  {
    if w.guiderState.Selected? then Outcome(c.(phase := Calibrate), log, false)
    else
      var left := c.start.waitSelectedRemaining - 1;
      Outcome(c.(phase := if left == 0 then AttemptStart else WaitSelected,
                 start := c.start.(waitSelectedRemaining := left)), log, true)
  }

  function RestoreSticky(s: StartState, log: seq<Event>): seq<Event> {
    if s.useStickyLock && s.haveSaveSticky then log + [SetSticky(s.saveSticky)] else log
  }

  function PassCalibrate(c: Ctrl, log: seq<Event>, w: World): (o: Outcome)
    ensures !o.done ==> o.ctrl.phase in {Finish, GuidePhase}
  {
    var cleared := if c.start.forceCalibration then log + [ClearCalibration] else log;
    if w.calibrated then Outcome(c.(phase := GuidePhase), cleared, false)
    else
      var sticky := c.start.useStickyLock;
      var s := if sticky then c.start.(saveSticky := w.lockPosIsSticky, haveSaveSticky := true) else c.start;
      var tried := (if sticky then cleared + [SetSticky(true)] else cleared) + [StartGuiding(!w.startGuidingFails)];
      if w.startGuidingFails then
        Outcome(Fail(c.(start := s), "could not start calibration"), RestoreSticky(s, tried), false)
      else Outcome(c.(phase := CalibrationWait, start := s), tried, true)
  }

  function PassCalibrationWait(c: Ctrl, log: seq<Event>, w: World): (o: Outcome)
    ensures !o.done ==> o.ctrl.phase == SettleBegin
  {
    if w.calibrated then Outcome(c.(phase := SettleBegin), RestoreSticky(c.start, log), false)
    else Outcome(c, log, true)
  }

  function PassGuide(c: Ctrl, log: seq<Event>, w: World): (o: Outcome)
    ensures !o.done ==> o.ctrl.phase == Finish
  {
    var tried := log + [StartGuiding(!w.startGuidingFails)];
    if w.startGuidingFails then Outcome(Fail(c, "could not start guiding"), tried, false)
    else Outcome(c.(phase := SettleBegin), tried, true)
  }

  function PassSettleBegin(c: Ctrl, log: seq<Event>, w: World): Outcome {
    var begun := log + [NotifySettleBegin];
    var settling := SettleState(false, w.now, c.settling.settleInRange, 0, 0);
    if c.dec.overrideDecGuideMode then
      Outcome(c.(phase := SettleWait, settling := settling, dec := c.dec.(mode := DecAuto)),
              begun + [SetDecMode(DecAuto)], true)
    else Outcome(c.(phase := SettleWait, settling := settling), begun, true)
  }

  predicate InRange(p: SettleParams, w: World) {
    w.locked && w.guideError <= p.tolerancePx
  }

  datatype Verdict = Pending | Settled | TimedOut

  /** What a frame means for the settling: the frame budget comes first, then the streak in range, then the timeout. */
  function StateVerdict(p: SettleParams, s: SettleState, w: World): Verdict {
    if s.frameCount + 1 >= p.frames then Settled
    else if InRange(p, w) && (if s.priorFrameInRange
                              then Seconds(w.now - s.settleInRange) >= p.settleTimeSec && !w.aoBump
                              else p.settleTimeSec <= 0) then Settled
    else if Seconds(w.now - s.settleTimeout) >= p.timeoutSec then TimedOut
    else Pending
  }

  function Counted(s: SettleState, w: World): SettleState {
    s.(frameCount := s.frameCount + 1, droppedFrameCount := s.droppedFrameCount + if w.locked then 0 else 1)
  }

  /** The stopwatch of a streak starts at its first frame. */
  function Timed(p: SettleParams, s: SettleState, w: World): SettleState {
    if InRange(p, w) && !s.priorFrameInRange then s.(settleInRange := w.now) else s
  }

  function TimeInRange(p: SettleParams, s: SettleState, w: World): int {
    if InRange(p, w) && s.priorFrameInRange then w.now - s.settleInRange else 0
  }

  /** What a pass does for a given verdict. */
  function SettleOutcome(c: Ctrl, log: seq<Event>, w: World, v: Verdict): (o: Outcome)
    ensures !o.done ==> o.ctrl.phase == Finish
  {
    var p, s := c.params, c.settling;
    match v
    case Settled => Outcome(Succeed(c.(settling := Counted(s, w))), log, false)
    case TimedOut =>
      Outcome(Fail(c.(settling := Timed(p, Counted(s, w), w)), "timed-out waiting for guider to settle"), log, false)
    case Pending =>
      Outcome(c.(settling := Timed(p, Counted(s, w), w).(priorFrameInRange := InRange(p, w))),
              log + [NotifySettling(w.guideError, TimeInRange(p, s, w), p.settleTimeSec, w.locked)], true)
  }

  function PassSettleWait(c: Ctrl, log: seq<Event>, w: World): (o: Outcome)
    ensures !o.done ==> o.ctrl.phase == Finish
  {
    SettleOutcome(c, log, w, StateVerdict(c.params, c.settling, w))
  }

  function PassFinish(c: Ctrl, log: seq<Event>): Outcome {
    var restored := if c.dec.overrideDecGuideMode then log + [SetDecMode(c.dec.saveDecGuideMode)] else log;
    var mode := if c.dec.overrideDecGuideMode then c.dec.saveDecGuideMode else c.dec.mode;
    Outcome(c.(phase := Idle, dec := c.dec.(mode := mode, overrideDecGuideMode := false)),
            restored + [NotifySettleDone(c.succeeded, if c.succeeded then "" else c.errorMsg,
                                         c.settling.frameCount, c.settling.droppedFrameCount)],
            true)
  }

  function PassSetup(c: Ctrl, log: seq<Event>): Outcome {
    Outcome(c.(phase := AttemptStart,
               start := c.start.(haveSaveSticky := false, autoFindAttemptsRemaining := 3),
               dec := c.dec.(overrideDecGuideMode := false)), log, false)
  }

  /** A pass that does not end the update goes strictly down in this order. */
  function Rank(p: Phase): nat {
    match p
    case Setup => 7
    case AttemptStart => 6
    case SelectStar | WaitSelected => 5
    case Calibrate => 4
    case GuidePhase | CalibrationWait => 3
    case SettleBegin | SettleWait => 2
    case Finish => 1
    case Idle => 0
  }

  function Pass(c: Ctrl, log: seq<Event>, w: World): (o: Outcome)
    ensures !o.done ==> Rank(o.ctrl.phase) < Rank(c.phase)
  {
    match c.phase
    case Idle => Outcome(c, log, true)
    case Setup => PassSetup(c, log)
    case AttemptStart => PassAttemptStart(c, log, w)
    case SelectStar => PassSelectStar(c, log, w)
    case WaitSelected => PassWaitSelected(c, log, w)
    case Calibrate => PassCalibrate(c, log, w)
    case CalibrationWait => PassCalibrationWait(c, log, w)
    case GuidePhase => PassGuide(c, log, w)
    case SettleBegin => PassSettleBegin(c, log, w)
    case SettleWait => PassSettleWait(c, log, w)
    case Finish => PassFinish(c, log)
  }

  datatype System = System(ctrl: Ctrl, log: seq<Event>)

  /** One update: passes, each with its own answers from the world, until one says it is done. */
  function Update(c: Ctrl, log: seq<Event>, env: nat -> World, k: nat): System
    decreases Rank(c.phase)
  {
    var o := Pass(c, log, env(k));
    if o.done then System(o.ctrl, o.log) else Update(o.ctrl, o.log, env, k + 1)
  }

  // ----- the commands

  datatype GuideRequest = GuideRequest(forceRecal: bool, useStickyLock: bool, settle: SettleParams)

  /** frameRaOnly, hasScope and fails are answers of the program: its dither setting, whether Dec is a scope axis,
      and whether the frame refuses to dither. */
  datatype DitherRequest = DitherRequest(
    pixels: real, forceRaOnly: bool, settle: SettleParams, frameRaOnly: bool, hasScope: bool, fails: bool)

  datatype Response = Response(ctrl: Ctrl, log: seq<Event>, ok: bool)

  function GuideOp(s: System, r: GuideRequest, env: nat -> World): Response {
    var c := s.ctrl;
    if c.phase != Idle then Response(c, s.log, false)
    else
      var start := c.start.(forceCalibration := r.forceRecal, useStickyLock := r.useStickyLock);
      var u := Update(c.(phase := Setup, op := OpGuide, params := r.settle, start := start),
                      s.log + [Accepted(OpGuide)], env, 0);
      Response(u.ctrl, u.log, true)
  }

  predicate Consults(r: DitherRequest) {
    r.hasScope && !r.frameRaOnly && !r.forceRaOnly
  }

  /** A north-only or south-only mount is switched to both directions for the settling, if there is any. */
  predicate Overrides(mode: DecMode, r: DitherRequest) {
    && Consults(r)
    && (mode.DecNorth? || mode.DecSouth?)
    && r.settle.settleTimeSec != SETTLING_TIME_DISABLED
  }

  predicate RaOnly(mode: DecMode, r: DitherRequest) {
    r.frameRaOnly || r.forceRaOnly || (r.hasScope && mode != DecAuto && !Overrides(mode, r))
  }

  function DitherOp(s: System, r: DitherRequest, env: nat -> World): Response {
    var c := s.ctrl;
    if c.phase != Idle then Response(c, s.log, false)
    else
      var dithered := s.log + [Dithered(r.pixels, RaOnly(c.dec.mode, r))];
      if r.fails then Response(c, dithered, false)
      else
        var dec := DecState(c.dec.mode, if Consults(r) then c.dec.mode else DecNone, Overrides(c.dec.mode, r));
        var u := Update(c.(phase := SettleBegin, op := OpDither, params := r.settle, dec := dec),
                        dithered + [Accepted(OpDither)], env, 0);
        Response(u.ctrl, u.log, true)
  }

  function AbortOp(s: System, reason: string, env: nat -> World): System {
    if s.ctrl.phase == Idle then s else Update(Fail(s.ctrl, reason), s.log, env, 0)
  }

  function CompatRequest(r: DitherRequest): DitherRequest {
    r.(forceRaOnly := false,
       settle := SettleParams(99.0, SETTLING_TIME_DISABLED, SETTLING_TIME_DISABLED, 10))
  }

  function DitherCompatOp(s: System, r: DitherRequest, env0: nat -> World, env: nat -> World): Response {
    DitherOp(AbortOp(s, "manual or phd1-style dither", env0), CompatRequest(r), env)
  }

  // ----- the controller object

  class PhdController {
    var phase: Phase
    var settleOp: Op
    var settle: SettleParams
    var start: StartState
    var settling: SettleState
    var dec: DecState
    var succeeded: bool
    var errorMsg: string
    var log: seq<Event>

    function View(): Ctrl
      reads this
    {
      Ctrl(phase, settleOp, settle, start, settling, dec, succeeded, errorMsg)
    }

    function State(): System
      reads this
    {
      System(View(), log)
    }

    constructor (c: Ctrl)
      ensures View() == c && log == []
    {
      phase, settleOp, settle, start := c.phase, c.op, c.params, c.start;
      settling, dec, succeeded, errorMsg, log := c.settling, c.dec, c.succeeded, c.errorMsg, [];
    }

    method DoFail(msg: string)
      modifies this`succeeded, this`errorMsg, this`phase
      ensures View() == Fail(old(View()), msg)
    {
      succeeded := false;
      errorMsg := msg;
      phase := Finish;
    }

    method Emit(e: Event)
      modifies this`log
      ensures log == old(log) + [e]
    {
      log := log + [e];
    }

    method StartPass(w: World) returns (done: bool)
      requires phase.AttemptStart?
      modifies this`log, this`phase, this`succeeded, this`errorMsg
      ensures Outcome(View(), log, done) == PassAttemptStart(old(View()), old(log), w)
    {
      done := false;
      if !w.gearConnected {
        DoFail("all equipment must be connected first");
      } else if IsCalibratingOrGuiding(w.guiderState) {
        if start.forceCalibration {
          phase := Calibrate;
        } else if w.guiderState == Calibrated || w.guiderState == Guiding {
          phase := SettleBegin;
        } else {
          phase := CalibrationWait;
          done := true;
        }
      } else if !w.captureActive {
        if !w.cameraConnected {
          DoFail("unable to start capturing");
        } else {
          Emit(ResetGuider);
          Emit(ResetAutoExposure);
          Emit(StartCapturing);
          phase := SelectStar;
          done := true;
        }
      } else if w.guiderState == Selected {
        phase := Calibrate;
      } else {
        phase := SelectStar;
        if w.autoExposure {
          Emit(ResetAutoExposure);
          done := true;
        }
      }
    }

    method SelectPass(w: World) returns (done: bool)
      requires phase.SelectStar?
      modifies this`log, this`phase, this`succeeded, this`errorMsg, this`start
      ensures Outcome(View(), log, done) == PassSelectStar(old(View()), old(log), w)
    {
      done := false;
      Emit(AutoSelect(!w.autoSelectFails));
      if w.autoSelectFails {
        start := start.(autoFindAttemptsRemaining := start.autoFindAttemptsRemaining - 1);
        if start.autoFindAttemptsRemaining == 0 {
          DoFail("failed to find a suitable guide star");
        } else {
          Emit(ResetGuider);
          phase := AttemptStart;
          done := true;
        }
      } else {
        phase := WaitSelected;
        start := start.(waitSelectedRemaining := 3);
        done := true;
      }
    }

    method WaitSelectedPass(w: World) returns (done: bool)
      requires phase.WaitSelected?
      modifies this`phase, this`start
      ensures Outcome(View(), log, done) == PassWaitSelected(old(View()), log, w)
    {
      done := false;
      if w.guiderState == Selected {
        phase := Calibrate;
      } else {
        start := start.(waitSelectedRemaining := start.waitSelectedRemaining - 1);
        if start.waitSelectedRemaining == 0 {
          phase := AttemptStart;
        }
        done := true;
      }
    }

    method CalibratePass(w: World) returns (done: bool)
      requires phase.Calibrate?
      modifies this`log, this`phase, this`succeeded, this`errorMsg, this`start
      ensures Outcome(View(), log, done) == PassCalibrate(old(View()), old(log), w)
    {
      done := false;
      if start.forceCalibration {
        Emit(ClearCalibration);
      }
      if !w.calibrated {
        if start.useStickyLock {
          start := start.(saveSticky := w.lockPosIsSticky);
          start := start.(haveSaveSticky := true);
          Emit(SetSticky(true));
        }
        Emit(StartGuiding(!w.startGuidingFails));
        if w.startGuidingFails {
          if start.useStickyLock && start.haveSaveSticky {
            Emit(SetSticky(start.saveSticky));
          }
          DoFail("could not start calibration");
        } else {
          phase := CalibrationWait;
          done := true;
        }
      } else {
        phase := GuidePhase;
      }
    }

    method CalibrationWaitPass(w: World) returns (done: bool)
      requires phase.CalibrationWait?
      modifies this`log, this`phase
      ensures Outcome(View(), log, done) == PassCalibrationWait(old(View()), old(log), w)
    {
      done := false;
      if w.calibrated {
        if start.useStickyLock && start.haveSaveSticky {
          Emit(SetSticky(start.saveSticky));
        }
        phase := SettleBegin;
      } else {
        done := true;
      }
    }

    method GuidePass(w: World) returns (done: bool)
      requires phase.GuidePhase?
      modifies this`log, this`phase, this`succeeded, this`errorMsg
      ensures Outcome(View(), log, done) == PassGuide(old(View()), old(log), w)
    {
      done := false;
      Emit(StartGuiding(!w.startGuidingFails));
      if w.startGuidingFails {
        DoFail("could not start guiding");
      } else {
        phase := SettleBegin;
        done := true;
      }
    }

    method SettleBeginPass(w: World)
      requires phase.SettleBegin?
      modifies this`log, this`phase, this`dec, this`settling
      ensures Outcome(View(), log, true) == PassSettleBegin(old(View()), old(log), w)
    {
      Emit(NotifySettleBegin);
      if dec.overrideDecGuideMode {
        Emit(SetDecMode(DecAuto));
        dec := dec.(mode := DecAuto);
      }
      settling := settling.(priorFrameInRange := false);
      settling := settling.(frameCount := 0, droppedFrameCount := 0);
      settling := settling.(settleTimeout := w.now);
      phase := SettleWait;
    }

    method SettleWaitPass(w: World) returns (done: bool)
      requires phase.SettleWait?
      modifies this`log, this`phase, this`succeeded, this`errorMsg, this`settling
      ensures Outcome(View(), log, done) == PassSettleWait(old(View()), old(log), w)
    {
      ghost var v := StateVerdict(settle, settling, w);
      var inRange := w.locked && w.guideError <= settle.tolerancePx;
      var timeInRange := 0;
      settling := settling.(frameCount := settling.frameCount + 1);
      if !w.locked {
        settling := settling.(droppedFrameCount := settling.droppedFrameCount + 1);
      }
      if settling.frameCount >= settle.frames {
        assert v == Settled;
        succeeded := true;
        phase := Finish;
        return false;
      }
      if inRange {
        if !settling.priorFrameInRange {
          if settle.settleTimeSec <= 0 {
            assert v == Settled;
            succeeded := true;
            phase := Finish;
            return false;
          }
          settling := settling.(settleInRange := w.now);
        } else {
          timeInRange := w.now - settling.settleInRange;
          if Seconds(timeInRange) >= settle.settleTimeSec && !w.aoBump {
            assert v == Settled;
            succeeded := true;
            phase := Finish;
            return false;
          }
        }
      }
      if Seconds(w.now - settling.settleTimeout) >= settle.timeoutSec {
        assert v == TimedOut;
        DoFail("timed-out waiting for guider to settle");
        return false;
      }
      assert v == Pending;
      Emit(NotifySettling(w.guideError, timeInRange, settle.settleTimeSec, w.locked));
      settling := settling.(priorFrameInRange := inRange);
      done := true;
    }

    method DoNotify()
      modifies this`log
      ensures log == old(log) + [NotifySettleDone(succeeded, if succeeded then "" else errorMsg,
                                                  settling.frameCount, settling.droppedFrameCount)]
    {
      if succeeded {
        Emit(NotifySettleDone(true, "", settling.frameCount, settling.droppedFrameCount));
      } else {
        Emit(NotifySettleDone(false, errorMsg, settling.frameCount, settling.droppedFrameCount));
      }
    }

    method FinishPass()
      requires phase.Finish?
      modifies this`log, this`phase, this`dec
      ensures Outcome(View(), log, true) == PassFinish(old(View()), old(log))
    {
      if dec.overrideDecGuideMode {
        Emit(SetDecMode(dec.saveDecGuideMode));
        dec := dec.(mode := dec.saveDecGuideMode);
        dec := dec.(overrideDecGuideMode := false);
      }
      DoNotify();
      phase := Idle;
    }

    /** The body of the loop: one state, one set of answers. */
    method OnePass(w: World) returns (done: bool)
      modifies this
      ensures Outcome(View(), log, done) == Pass(old(View()), old(log), w)
    {
      done := false;
      match phase {
        case Idle => done := true;
        case Setup =>
          start := start.(haveSaveSticky := false);
          start := start.(autoFindAttemptsRemaining := 3);
          dec := dec.(overrideDecGuideMode := false);
          phase := AttemptStart;
        case AttemptStart => done := StartPass(w);
        case SelectStar => done := SelectPass(w);
        case WaitSelected => done := WaitSelectedPass(w);
        case Calibrate => done := CalibratePass(w);
        case CalibrationWait => done := CalibrationWaitPass(w);
        case GuidePhase => done := GuidePass(w);
        case SettleBegin => SettleBeginPass(w); done := true;
        case SettleWait => done := SettleWaitPass(w);
        case Finish => FinishPass(); done := true;
      }
    }

    method UpdateControllerState(env: nat -> World)
      modifies this
      ensures State() == Update(old(View()), old(log), env, 0)
    {
      var done := false;
      var k := 0;
      while !done
        invariant !done ==> Update(old(View()), old(log), env, 0) == Update(View(), log, env, k)
        invariant done ==> Update(old(View()), old(log), env, 0) == State()
        decreases !done, Rank(phase)
      {
        done := OnePass(env(k));
        k := k + 1;
      }
    }

    method Guide(r: GuideRequest, env: nat -> World) returns (ok: bool)
      modifies this
      ensures Response(View(), log, ok) == GuideOp(old(State()), r, env)
    {
      if phase != Idle {
        return false;
      }
      start := start.(forceCalibration := r.forceRecal);
      start := start.(useStickyLock := r.useStickyLock);
      settleOp := OpGuide;
      settle := r.settle;
      phase := Setup;
      Emit(Accepted(OpGuide));
      UpdateControllerState(env);
      ok := true;
    }

    method Dither(r: DitherRequest, env: nat -> World) returns (ok: bool)
      modifies this
      ensures Response(View(), log, ok) == DitherOp(old(State()), r, env)
    {
      if phase != Idle {
        return false;
      }
      var raOnly := r.frameRaOnly;
      if r.forceRaOnly {
        raOnly := true;
      }
      var overriding := false;
      var dgm := DecNone;
      if r.hasScope && !raOnly {
        dgm := dec.mode;
        if dgm != DecAuto {
          if (dgm == DecNorth || dgm == DecSouth) && r.settle.settleTimeSec != SETTLING_TIME_DISABLED {
            overriding := true;
          } else {
            raOnly := true;
          }
        }
      }
      Emit(Dithered(r.pixels, raOnly));
      if r.fails {
        return false;
      }
      settleOp := OpDither;
      settle := r.settle;
      dec := dec.(overrideDecGuideMode := overriding);
      dec := dec.(saveDecGuideMode := dgm);
      phase := SettleBegin;
      Emit(Accepted(OpDither));
      UpdateControllerState(env);
      ok := true;
    }

    method AbortController(reason: string, env: nat -> World)
      modifies this
      ensures State() == AbortOp(old(State()), reason, env)
    {
      if phase != Idle {
        DoFail(reason);
        UpdateControllerState(env);
      }
    }

    method DitherCompat(r: DitherRequest, env0: nat -> World, env: nat -> World) returns (ok: bool)
      modifies this
      ensures Response(View(), log, ok) == DitherCompatOp(old(State()), r, env0, env)
    {
      AbortController("manual or phd1-style dither", env0);
      ok := Dither(CompatRequest(r), env);
    }
  }
}
