/** What holds of the controller on every run: accounting of operations, the Dec guide mode, retries, settling. */
module ControllerLaws {
  import opened Controller

  // ----- reading the log

  datatype Stage = Quiet | Started | Settling | Broken

  /** stage is Broken once an event came out of order; fails counts failed star selections of the operation. */
  datatype Tally = Tally(stage: Stage, fails: nat, accepted: nat, begun: nat, finished: nat)

  function Advance(t: Tally, e: Event): Tally {
    match e
    case Accepted(_) =>
      t.(stage := if t.stage.Quiet? then Started else Broken, fails := 0, accepted := t.accepted + 1)
    case NotifySettleBegin => t.(stage := if t.stage.Started? then Settling else Broken, begun := t.begun + 1)
    case NotifySettling(_, _, _, _) => t.(stage := if t.stage.Settling? then Settling else Broken)
    case NotifySettleDone(_, _, _, _) =>
      t.(stage := if t.stage.Started? || t.stage.Settling? then Quiet else Broken, finished := t.finished + 1)
    case AutoSelect(ok) =>
      t.(stage := if t.stage.Started? then Started else Broken, fails := t.fails + if ok then 0 else 1)
    case StartGuiding(_) => t.(stage := if t.stage.Started? then Started else Broken)
    case SetDecMode(_) => t.(stage := if t.stage.Quiet? then Broken else t.stage)
    case _ => t
  }

  function Read(log: seq<Event>): Tally {
    if log == [] then Tally(Quiet, 0, 0, 0, 0)
    else Advance(Read(log[..|log| - 1]), log[|log| - 1])
  }

  lemma ReadSnoc(log: seq<Event>, e: Event)
    ensures Read(log + [e]) == Advance(Read(log), e)
  {
    assert (log + [e])[..|log|] == log;
  }

  // ----- the invariant

  ghost predicate StageAgrees(p: Phase, stage: Stage) {
    match p
    case Idle => stage.Quiet?
    case SettleWait => stage.Settling?
    case Finish => stage.Started? || stage.Settling?
    case _ => stage.Started?
  }

  ghost predicate Accounted(t: Tally) {
    && t.accepted == t.finished + (if t.stage.Quiet? then 0 else 1)
    && t.begun <= t.finished + (if t.stage.Settling? then 1 else 0)
  }

  ghost predicate AttemptsLeft(p: Phase, s: StartState, fails: nat) {
    && fails <= 3
    && (p.Setup? ==> fails == 0)
    && (p.AttemptStart? || p.SelectStar? || p.WaitSelected? ==>
          fails + s.autoFindAttemptsRemaining == 3 && s.autoFindAttemptsRemaining >= 1)
    && (p.WaitSelected? ==> 1 <= s.waitSelectedRemaining <= 3)
  }

  /** base is the Dec guide mode that the mount had before the operation. */
  ghost predicate DecKept(p: Phase, d: DecState, base: DecMode) {
    if d.overrideDecGuideMode then
      && d.saveDecGuideMode == base
      && (p.SettleBegin? || p.SettleWait? || p.Finish?)
      && (p.SettleBegin? ==> d.mode == base)
      && (p.SettleWait? ==> d.mode == DecAuto)
    else d.mode == base
  }

  ghost predicate FramesCounted(p: Phase, s: SettleState, frames: int) {
    && 0 <= s.droppedFrameCount <= s.frameCount
    && (p.SettleWait? ==> s.frameCount == 0 || s.frameCount < frames)
  }

  ghost predicate Inv(c: Ctrl, t: Tally, base: DecMode) {
    && StageAgrees(c.phase, t.stage) && Accounted(t)
    && AttemptsLeft(c.phase, c.start, t.fails)
    && DecKept(c.phase, c.dec, base)
    && FramesCounted(c.phase, c.settling, c.params.frames)
  }

  /** Where an update may leave the controller. */
  predicate Resting(p: Phase) {
    !p.Setup? && !p.Finish? && !p.Calibrate? && !p.GuidePhase?
  }

  ghost predicate Kept(o: Outcome, base: DecMode) {
    Inv(o.ctrl, Read(o.log), base) && (o.done ==> Resting(o.ctrl.phase))
  }

  predicate Neutral(e: Event) {
    e.Dithered? || e.StartCapturing? || e.ResetAutoExposure? || e.ResetGuider? || e.ClearCalibration? || e.SetSticky?
  }

  lemma NeutralSnoc(log: seq<Event>, e: Event)
    requires Neutral(e)
    ensures Read(log + [e]) == Read(log)
  {
    ReadSnoc(log, e);
  }

  lemma AttemptStartReads(c: Ctrl, log: seq<Event>, w: World)
    ensures Read(PassAttemptStart(c, log, w).log) == Read(log)
  {
    var reset := log + [ResetGuider];
    var exposed := reset + [ResetAutoExposure];
    NeutralSnoc(log, ResetGuider);
    NeutralSnoc(reset, ResetAutoExposure);
    NeutralSnoc(exposed, StartCapturing);
    NeutralSnoc(log, ResetAutoExposure);
    assert PassAttemptStart(c, log, w).log in {log, exposed + [StartCapturing], log + [ResetAutoExposure]};
  }

  lemma AttemptStartKeeps(c: Ctrl, log: seq<Event>, w: World, base: DecMode)
    requires Inv(c, Read(log), base) && c.phase.AttemptStart?
    ensures Kept(PassAttemptStart(c, log, w), base)
  {
    hide Read, Accounted;
    AttemptStartReads(c, log, w);
    var d := PassAttemptStart(c, log, w).ctrl;
    assert d.start == c.start && d.dec == c.dec && d.settling == c.settling && d.params == c.params;
  }

  lemma SelectStarKeeps(c: Ctrl, log: seq<Event>, w: World, base: DecMode)
    requires Inv(c, Read(log), base) && c.phase.SelectStar?
    ensures Kept(PassSelectStar(c, log, w), base)
  {
    var tried := log + [AutoSelect(!w.autoSelectFails)];
    ReadSnoc(log, AutoSelect(!w.autoSelectFails));
    NeutralSnoc(tried, ResetGuider);
  }

  lemma WaitSelectedKeeps(c: Ctrl, log: seq<Event>, w: World, base: DecMode)
    requires Inv(c, Read(log), base) && c.phase.WaitSelected?
    ensures Kept(PassWaitSelected(c, log, w), base)
  {
  }

  lemma StickyKeeps(s: StartState, log: seq<Event>)
    ensures Read(RestoreSticky(s, log)) == Read(log)
  {
    NeutralSnoc(log, SetSticky(s.saveSticky));
  }

  lemma CalibrationTryReads(log: seq<Event>, sticky: bool, ok: bool)
    requires Read(log).stage.Started?
    ensures Read((if sticky then log + [SetSticky(true)] else log) + [StartGuiding(ok)]) == Read(log)
  {
    NeutralSnoc(log, SetSticky(true));
    ReadSnoc(if sticky then log + [SetSticky(true)] else log, StartGuiding(ok));
  }

  lemma CalibrateReads(c: Ctrl, log: seq<Event>, w: World)
    requires Read(log).stage.Started?
    ensures Read(PassCalibrate(c, log, w).log) == Read(log)
  {
    var cleared := if c.start.forceCalibration then log + [ClearCalibration] else log;
    NeutralSnoc(log, ClearCalibration);
    if !w.calibrated {
      var sticky := c.start.useStickyLock;
      var s := if sticky then c.start.(saveSticky := w.lockPosIsSticky, haveSaveSticky := true) else c.start;
      CalibrationTryReads(cleared, sticky, !w.startGuidingFails);
      StickyKeeps(s, (if sticky then cleared + [SetSticky(true)] else cleared) + [StartGuiding(!w.startGuidingFails)]);
    }
  }

  lemma CalibrateKeeps(c: Ctrl, log: seq<Event>, w: World, base: DecMode)
    requires Inv(c, Read(log), base) && c.phase.Calibrate?
    ensures Kept(PassCalibrate(c, log, w), base)
  {
    hide Read, Accounted;
    CalibrateReads(c, log, w);
  }

  lemma CalibrationWaitKeeps(c: Ctrl, log: seq<Event>, w: World, base: DecMode)
    requires Inv(c, Read(log), base) && c.phase.CalibrationWait?
    ensures Kept(PassCalibrationWait(c, log, w), base)
  {
    StickyKeeps(c.start, log);
  }

  lemma GuidePhaseKeeps(c: Ctrl, log: seq<Event>, w: World, base: DecMode)
    requires Inv(c, Read(log), base) && c.phase.GuidePhase?
    ensures Kept(PassGuide(c, log, w), base)
  {
    ReadSnoc(log, StartGuiding(!w.startGuidingFails));
  }

  lemma SettleBeginReads(c: Ctrl, log: seq<Event>, w: World)
    requires Read(log).stage.Started?
    ensures Read(PassSettleBegin(c, log, w).log) == Read(log).(stage := Settling, begun := Read(log).begun + 1)
  {
    ReadSnoc(log, NotifySettleBegin);
    ReadSnoc(log + [NotifySettleBegin], SetDecMode(DecAuto));
  }

  lemma SettleBeginKeeps(c: Ctrl, log: seq<Event>, w: World, base: DecMode)
    requires Inv(c, Read(log), base) && c.phase.SettleBegin?
    ensures Kept(PassSettleBegin(c, log, w), base)
  {
    SettleBeginReads(c, log, w);
  }

  lemma SettleOutcomeReads(c: Ctrl, log: seq<Event>, w: World, v: Verdict)
    requires Read(log).stage.Settling?
    ensures Read(SettleOutcome(c, log, w, v).log) == Read(log)
  {
    ReadSnoc(log, NotifySettling(w.guideError, TimeInRange(c.params, c.settling, w),
                                 c.params.settleTimeSec, w.locked));
  }

  lemma SettleOutcomeKeeps(c: Ctrl, log: seq<Event>, w: World, v: Verdict, base: DecMode)
    requires Inv(c, Read(log), base) && c.phase.SettleWait?
    requires v.Pending? ==> c.settling.frameCount + 1 < c.params.frames
    ensures Kept(SettleOutcome(c, log, w, v), base)
  {
    SettleOutcomeReads(c, log, w, v);
  }

  lemma DoneReads(log: seq<Event>, ok: bool, error: string, frames: int, dropped: int)
    requires Read(log).stage.Started? || Read(log).stage.Settling?
    ensures Read(log + [NotifySettleDone(ok, error, frames, dropped)])
         == Read(log).(stage := Quiet, finished := Read(log).finished + 1)
  {
    ReadSnoc(log, NotifySettleDone(ok, error, frames, dropped));
  }

  lemma FinishReads(c: Ctrl, log: seq<Event>)
    requires Read(log).stage.Started? || Read(log).stage.Settling?
    ensures Read(PassFinish(c, log).log) == Read(log).(stage := Quiet, finished := Read(log).finished + 1)
  {
    var restored := if c.dec.overrideDecGuideMode then log + [SetDecMode(c.dec.saveDecGuideMode)] else log;
    ReadSnoc(log, SetDecMode(c.dec.saveDecGuideMode));
    assert Read(restored) == Read(log);
    DoneReads(restored, c.succeeded, if c.succeeded then "" else c.errorMsg,
              c.settling.frameCount, c.settling.droppedFrameCount);
  }

  lemma FinishKeeps(c: Ctrl, log: seq<Event>, base: DecMode)
    requires Inv(c, Read(log), base) && c.phase.Finish?
    ensures Kept(PassFinish(c, log), base)
  {
    FinishReads(c, log);
  }

  lemma PassKeeps(c: Ctrl, log: seq<Event>, w: World, base: DecMode)
    requires Inv(c, Read(log), base)
    ensures Kept(Pass(c, log, w), base)
  {
    match c.phase {
      case Idle =>
      case Setup =>
      case AttemptStart => AttemptStartKeeps(c, log, w, base);
      case SelectStar => SelectStarKeeps(c, log, w, base);
      case WaitSelected => WaitSelectedKeeps(c, log, w, base);
      case Calibrate => CalibrateKeeps(c, log, w, base);
      case CalibrationWait => CalibrationWaitKeeps(c, log, w, base);
      case GuidePhase => GuidePhaseKeeps(c, log, w, base);
      case SettleBegin => SettleBeginKeeps(c, log, w, base);
      case SettleWait =>
        SettleOutcomeKeeps(c, log, w, StateVerdict(c.params, c.settling, w), base);
      case Finish => FinishKeeps(c, log, base);
    }
  }

  lemma {:induction false} UpdateKeeps(c: Ctrl, log: seq<Event>, env: nat -> World, k: nat, base: DecMode)
    requires Inv(c, Read(log), base)
    ensures var u := Update(c, log, env, k); Inv(u.ctrl, Read(u.log), base) && Resting(u.ctrl.phase)
    decreases Rank(c.phase)
  {
    PassKeeps(c, log, env(k), base);
    var o := Pass(c, log, env(k));
    if !o.done {
      UpdateKeeps(o.ctrl, o.log, env, k + 1, base);
    }
  }

  // ----- runs

  datatype Command =
    | GuideCmd(guide: GuideRequest, env: nat -> World)
    | DitherCmd(dither: DitherRequest, env: nat -> World)
    | CompatCmd(dither: DitherRequest, env0: nat -> World, env: nat -> World)
    | AbortCmd(reason: string, env: nat -> World)
    | FrameCmd(env: nat -> World)

  function Exec(s: System, cmd: Command): System {
    match cmd
    case GuideCmd(r, env) => var o := GuideOp(s, r, env); System(o.ctrl, o.log)
    case DitherCmd(r, env) => var o := DitherOp(s, r, env); System(o.ctrl, o.log)
    case CompatCmd(r, env0, env) => var o := DitherCompatOp(s, r, env0, env); System(o.ctrl, o.log)
    case AbortCmd(reason, env) => AbortOp(s, reason, env)
    case FrameCmd(env) => Update(s.ctrl, s.log, env, 0)
  }

  function Run(s: System, cmds: seq<Command>): System {
    if cmds == [] then s else Exec(Run(s, cmds[..|cmds| - 1]), cmds[|cmds| - 1])
  }

  ghost predicate Good(s: System, base: DecMode) {
    Inv(s.ctrl, Read(s.log), base) && Resting(s.ctrl.phase)
  }

  lemma GuideKeeps(s: System, r: GuideRequest, env: nat -> World, base: DecMode)
    requires Good(s, base)
    ensures Good(Exec(s, GuideCmd(r, env)), base)
  {
    var c := s.ctrl;
    if c.phase == Idle {
      ReadSnoc(s.log, Accepted(OpGuide));
      var start := c.start.(forceCalibration := r.forceRecal, useStickyLock := r.useStickyLock);
      UpdateKeeps(c.(phase := Setup, op := OpGuide, params := r.settle, start := start),
                  s.log + [Accepted(OpGuide)], env, 0, base);
    }
  }

  lemma DitherKeeps(s: System, r: DitherRequest, env: nat -> World, base: DecMode)
    requires Good(s, base)
    ensures Good(Exec(s, DitherCmd(r, env)), base)
  {
    var c := s.ctrl;
    if c.phase == Idle {
      var e := Dithered(r.pixels, RaOnly(c.dec.mode, r));
      ReadSnoc(s.log, e);
      ReadSnoc(s.log + [e], Accepted(OpDither));
      var dec := DecState(c.dec.mode, if Consults(r) then c.dec.mode else DecNone, Overrides(c.dec.mode, r));
      if !r.fails {
        UpdateKeeps(c.(phase := SettleBegin, op := OpDither, params := r.settle, dec := dec),
                    s.log + [e] + [Accepted(OpDither)], env, 0, base);
      }
    }
  }

  lemma AbortKeeps(s: System, reason: string, env: nat -> World, base: DecMode)
    requires Good(s, base)
    ensures Good(AbortOp(s, reason, env), base)
    ensures AbortOp(s, reason, env).ctrl.phase == Idle
  {
    if s.ctrl.phase != Idle {
      UpdateKeeps(Fail(s.ctrl, reason), s.log, env, 0, base);
    }
  }

  lemma ExecKeeps(s: System, cmd: Command, base: DecMode)
    requires Good(s, base)
    ensures Good(Exec(s, cmd), base)
  {
    match cmd {
      case GuideCmd(r, env) => GuideKeeps(s, r, env, base);
      case DitherCmd(r, env) => DitherKeeps(s, r, env, base);
      case CompatCmd(r, env0, env) =>
        AbortKeeps(s, "manual or phd1-style dither", env0, base);
        DitherKeeps(AbortOp(s, "manual or phd1-style dither", env0), CompatRequest(r), env, base);
      case AbortCmd(reason, env) => AbortKeeps(s, reason, env, base);
      case FrameCmd(env) => UpdateKeeps(s.ctrl, s.log, env, 0, base);
    }
  }

  /** The controller before its first command: idle, nothing overridden, nothing logged. */
  ghost predicate Fresh(s: System) {
    && s.log == [] && s.ctrl.phase == Idle && !s.ctrl.dec.overrideDecGuideMode
    && 0 <= s.ctrl.settling.droppedFrameCount <= s.ctrl.settling.frameCount
  }

  lemma {:induction false} RunKeeps(s: System, cmds: seq<Command>)
    requires Fresh(s)
    ensures Good(Run(s, cmds), s.ctrl.dec.mode)
  {
    if cmds == [] {
    } else {
      RunKeeps(s, cmds[..|cmds| - 1]);
      ExecKeeps(Run(s, cmds[..|cmds| - 1]), cmds[|cmds| - 1], s.ctrl.dec.mode);
    }
  }

  // ----- the promises, on every run

  /** Events never come out of order, and every accepted operation has been answered or is the one in progress. */
  lemma OperationsAccounted(s: System, cmds: seq<Command>)
    requires Fresh(s)
    ensures var e := Run(s, cmds); var t := Read(e.log);
            && t.stage != Broken
            && t.accepted == t.finished + (if e.ctrl.phase == Idle then 0 else 1)
            && t.begun <= t.accepted
  {
    RunKeeps(s, cmds);
  }

  /** The Dec guide mode is as before whenever the controller is idle, and AUTO while an overriding dither settles. */
  lemma DecModeRestored(s: System, cmds: seq<Command>)
    requires Fresh(s)
    ensures var c := Run(s, cmds).ctrl;
            && (c.phase == Idle ==> c.dec.mode == s.ctrl.dec.mode && !c.dec.overrideDecGuideMode)
            && (c.phase == SettleWait ==>
                  c.dec.mode == if c.dec.overrideDecGuideMode then DecAuto else s.ctrl.dec.mode)
            && (c.dec.mode != s.ctrl.dec.mode ==> c.dec.overrideDecGuideMode && c.phase == SettleWait)
  {
    RunKeeps(s, cmds);
  }

  /** A guide operation survives at most two failed star selections; frame counts are consistent. */
  lemma AttemptsBounded(s: System, cmds: seq<Command>)
    requires Fresh(s)
    ensures var e := Run(s, cmds);
            && Read(e.log).fails <= 3
            && (e.ctrl.phase == SelectStar || e.ctrl.phase == AttemptStart || e.ctrl.phase == WaitSelected ==>
                  Read(e.log).fails <= 2)
            && 0 <= e.ctrl.settling.droppedFrameCount <= e.ctrl.settling.frameCount
  {
    RunKeeps(s, cmds);
  }

  /** Aborting always leaves the controller idle, answering the operation in progress with the reason. */
  lemma AbortAnswers(s: System, reason: string, env: nat -> World)
    ensures var a := AbortOp(s, reason, env);
            && a.ctrl.phase == Idle
            && (s.ctrl.phase == Idle ==> a == s)
            && (s.ctrl.phase != Idle ==>
                  |a.log| > |s.log| && a.log[|a.log| - 1]
                    == NotifySettleDone(false, reason, s.ctrl.settling.frameCount, s.ctrl.settling.droppedFrameCount))
  {
  }

  /** After a legacy dither request only the dither itself can have refused: nothing older is in its way. */
  lemma CompatNeverReentrant(s: System, r: DitherRequest, env0: nat -> World, env: nat -> World, base: DecMode)
    requires Good(s, base)
    ensures DitherCompatOp(s, r, env0, env).ok <==> !r.fails
  {
    AbortKeeps(s, "manual or phd1-style dither", env0, base);
  }

  /** An accepted dither that overrides a one-way Dec mode is settling in AUTO when the call returns. */
  lemma OverridingDitherIsAuto(s: System, r: DitherRequest, env: nat -> World)
    requires s.ctrl.phase == Idle && !r.fails
    ensures var o := DitherOp(s, r, env);
            && o.ok && o.ctrl.phase == SettleWait
            && (Overrides(s.ctrl.dec.mode, r) ==> o.ctrl.dec.mode == DecAuto)
            && (!Overrides(s.ctrl.dec.mode, r) ==> o.ctrl.dec.mode == s.ctrl.dec.mode)
  {
  }
}
