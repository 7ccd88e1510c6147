/**
 Settling over whole frame traces. The reference judges a settling from the list of all its frames; the
 controller keeps only two stopwatches, two counters and one flag, and comes to the same verdict.
 */
module SettleLaws {
  import opened Controller

  /** Index of the first frame of the unbroken run of frames in range that ends the trace. */
  function StreakStart(p: SettleParams, fs: seq<World>): (k: nat)
    ensures k <= |fs|
    ensures forall i :: k <= i < |fs| ==> InRange(p, fs[i])
    ensures k > 0 ==> !InRange(p, fs[k - 1])
  {
    if fs == [] || !InRange(p, fs[|fs| - 1]) then |fs| else StreakStart(p, fs[..|fs| - 1])
  }

  /** The last frame ends a streak that has lasted long enough. */
  predicate StreakSuffices(p: SettleParams, fs: seq<World>)
    requires fs != []
  {
    var n, k := |fs| - 1, StreakStart(p, fs);
    && k <= n
    && if k == n then p.settleTimeSec <= 0
       else Seconds(fs[n].now - fs[k].now) >= p.settleTimeSec && !fs[n].aoBump
  }

  /** The verdict at the last frame of a settling begun at time t0 that was pending until then. */
  function Judge(p: SettleParams, t0: int, fs: seq<World>): Verdict
    requires fs != []
  {
    if |fs| >= p.frames || StreakSuffices(p, fs) then Settled
    else if Seconds(fs[|fs| - 1].now - t0) >= p.timeoutSec then TimedOut
    else Pending
  }

  /** The verdict at the first frame where there is one. */
  function Verdicts(p: SettleParams, t0: int, fs: seq<World>): Verdict {
    if fs == [] then Pending
    else
      var before := Verdicts(p, t0, fs[..|fs| - 1]);
      if before.Pending? then Judge(p, t0, fs) else before
  }

  function Dropped(fs: seq<World>): nat {
    if fs == [] then 0 else Dropped(fs[..|fs| - 1]) + if fs[|fs| - 1].locked then 0 else 1
  }

  /** The controller's settling record stands for the frames fs of a settling begun at t0. */
  ghost predicate Stands(c: Ctrl, t0: int, fs: seq<World>) {
    && c.phase == SettleWait
    && c.settling.settleTimeout == t0
    && c.settling.frameCount == |fs|
    && c.settling.droppedFrameCount == Dropped(fs)
    && (c.settling.priorFrameInRange <==> fs != [] && InRange(c.params, fs[|fs| - 1]))
    && (c.settling.priorFrameInRange ==>
          var k := StreakStart(c.params, fs);
          k < |fs| && c.settling.settleInRange == fs[k].now)
  }

  lemma StreakSnoc(p: SettleParams, fs: seq<World>, w: World)
    ensures StreakStart(p, fs + [w]) == if InRange(p, w) then StreakStart(p, fs) else |fs| + 1
  {
    assert (fs + [w])[..|fs|] == fs;
  }

  ghost predicate Ended(o: Outcome, log: seq<Event>, v: Verdict, fs: seq<World>) {
    && !o.done && o.ctrl.phase == Finish && o.log == log
    && (o.ctrl.succeeded <==> v.Settled?)
    && o.ctrl.settling.frameCount == |fs| && o.ctrl.settling.droppedFrameCount == Dropped(fs)
    && (v.TimedOut? ==> o.ctrl.errorMsg == "timed-out waiting for guider to settle")
  }

  lemma StreakAfter(c: Ctrl, t0: int, fs: seq<World>, w: World)
    requires Stands(c, t0, fs) && InRange(c.params, w)
    ensures var p, g := c.params, fs + [w]; var k := StreakStart(p, g);
            if c.settling.priorFrameInRange then k < |fs| && g[k].now == c.settling.settleInRange else k == |fs|
  {
    StreakSnoc(c.params, fs, w);
    assert StreakStart(c.params, fs) < |fs| ==> InRange(c.params, fs[|fs| - 1]);
  }

  lemma StreakNow(c: Ctrl, t0: int, fs: seq<World>, w: World)
    requires Stands(c, t0, fs)
    ensures StreakSuffices(c.params, fs + [w]) <==>
              && InRange(c.params, w)
              && if c.settling.priorFrameInRange
                 then Seconds(w.now - c.settling.settleInRange) >= c.params.settleTimeSec && !w.aoBump
                 else c.params.settleTimeSec <= 0
  {
    StreakSnoc(c.params, fs, w);
    if InRange(c.params, w) {
      StreakAfter(c, t0, fs, w);
    }
  }

  lemma StateJudges(c: Ctrl, t0: int, fs: seq<World>, w: World)
    requires Stands(c, t0, fs)
    ensures StateVerdict(c.params, c.settling, w) == Judge(c.params, t0, fs + [w])
  {
    StreakNow(c, t0, fs, w);
  }

  lemma PassFollowsState(c: Ctrl, log: seq<Event>, w: World)
    requires c.phase == SettleWait
    ensures var o, v := PassSettleWait(c, log, w), StateVerdict(c.params, c.settling, w);
            && o.ctrl.params == c.params
            && (o.done <==> v.Pending?)
            && (!o.done ==> o.ctrl.phase == Finish && o.log == log && (o.ctrl.succeeded <==> v.Settled?))
            && (v.TimedOut? ==> o.ctrl.errorMsg == "timed-out waiting for guider to settle")
            && o.ctrl.settling.frameCount == c.settling.frameCount + 1
            && o.ctrl.settling.droppedFrameCount == c.settling.droppedFrameCount + if w.locked then 0 else 1
  {
  }

  /** One frame: the state-based pass decides exactly as the reference does from the whole history. */
  lemma PassJudges(c: Ctrl, log: seq<Event>, t0: int, fs: seq<World>, w: World)
    requires Stands(c, t0, fs)
    ensures var o, v := PassSettleWait(c, log, w), Judge(c.params, t0, fs + [w]);
            && o.ctrl.params == c.params
            && (o.done <==> v.Pending?)
            && (!v.Pending? ==> Ended(o, log, v, fs + [w]))
  {
    PassFollowsState(c, log, w);
    StateJudges(c, t0, fs, w);
    assert (fs + [w])[..|fs|] == fs;
  }

  /** The report of a frame: its distance and lock, and how long the streak that it ends has lasted. */
  function Progress(p: SettleParams, fs: seq<World>): Event
    requires fs != []
  {
    var w, k := fs[|fs| - 1], StreakStart(p, fs);
    NotifySettling(w.guideError, if k == |fs| then 0 else w.now - fs[k].now, p.settleTimeSec, w.locked)
  }

  lemma PassReports(c: Ctrl, log: seq<Event>, t0: int, fs: seq<World>, w: World)
    requires Stands(c, t0, fs) && PassSettleWait(c, log, w).done
    ensures PassSettleWait(c, log, w).log == log + [Progress(c.params, fs + [w])]
  {
    hide Judge, Seconds;
    StreakSnoc(c.params, fs, w);
    if InRange(c.params, w) {
      StreakAfter(c, t0, fs, w);
    }
  }

  lemma PassStands(c: Ctrl, log: seq<Event>, t0: int, fs: seq<World>, w: World)
    requires Stands(c, t0, fs) && PassSettleWait(c, log, w).done
    ensures Stands(PassSettleWait(c, log, w).ctrl, t0, fs + [w])
  {
    assert (fs + [w])[..|fs|] == fs;
    if InRange(c.params, w) {
      StreakAfter(c, t0, fs, w);
    }
  }

  /** Frames fed one update each; the environment of an update answers every pass with the same frame. */
  function Feed(s: System, ws: seq<World>): System {
    if ws == [] then s
    else
      var before := Feed(s, ws[..|ws| - 1]);
      Update(before.ctrl, before.log, (k: nat) => ws[|ws| - 1], 0)
  }

  lemma IdleUpdate(c: Ctrl, log: seq<Event>, w: World)
    requires c.phase == Idle
    ensures var u := Update(c, log, (k: nat) => w, 0); u.ctrl == c && u.log == log
  {
  }

  lemma FinishUpdate(c: Ctrl, log: seq<Event>, env: nat -> World, k: nat)
    requires c.phase == Finish
    ensures var u := Update(c, log, env, k);
            && u.ctrl.phase == Idle && u.ctrl.succeeded == c.succeeded && u.ctrl.settling == c.settling
            && u.log != []
            && u.log[|u.log| - 1] == NotifySettleDone(c.succeeded, if c.succeeded then "" else c.errorMsg,
                                                      c.settling.frameCount, c.settling.droppedFrameCount)
  {
  }

  lemma StandsWaits(c: Ctrl, t0: int, fs: seq<World>)
    requires Stands(c, t0, fs)
    ensures c.phase == SettleWait
  {
  }

  lemma FrameUpdate(c: Ctrl, log: seq<Event>, t0: int, fs: seq<World>, w: World)
    requires Stands(c, t0, fs)
    ensures var u, v := Update(c, log, (k: nat) => w, 0), Judge(c.params, t0, fs + [w]);
            && (v.Pending? ==> Stands(u.ctrl, t0, fs + [w]) && u.ctrl.params == c.params)
            && (!v.Pending? ==> u.ctrl.phase == Idle && Answered(u.log, v, fs + [w]))
            && (v.Pending? ==> u.log == log + [Progress(c.params, fs + [w])])
  {
    hide PassSettleWait, Judge, Stands, Progress;
    PassJudges(c, log, t0, fs, w);
    var o := PassSettleWait(c, log, w);
    assert c.phase == SettleWait by { StandsWaits(c, t0, fs); }
    if o.done {
      PassReports(c, log, t0, fs, w);
      PassStands(c, log, t0, fs, w);
    } else {
      FinishUpdate(o.ctrl, o.log, (k: nat) => w, 1);
    }
  }

  /** The last notification reports the verdict with the number of frames seen and of those without a lock. */
  ghost predicate Answered(log: seq<Event>, v: Verdict, fs: seq<World>) {
    && log != []
    && var e := log[|log| - 1];
    && e.NotifySettleDone? && (e.ok <==> v.Settled?) && e.frames == |fs| && e.dropped == Dropped(fs)
    && e.error == if v.Settled? then "" else "timed-out waiting for guider to settle"
  }

  /** Length of the shortest prefix with a verdict, or of the whole trace. */
  function Decided(p: SettleParams, t0: int, fs: seq<World>): (n: nat)
    ensures n <= |fs|
  {
    if fs == [] then 0
    else if Verdicts(p, t0, fs[..|fs| - 1]).Pending? then |fs|
    else Decided(p, t0, fs[..|fs| - 1])
  }

  /**
   From the moment settling begins, over every trace of frames: the controller is still settling exactly while the
   reference has no verdict, and otherwise it is idle and has reported that verdict for the frames up to it.
   */
  lemma {:induction false} FeedDecides(s: System, t0: int, ws: seq<World>)
    requires Stands(s.ctrl, t0, [])
    ensures var p, e := s.ctrl.params, Feed(s, ws); var v := Verdicts(p, t0, ws);
            && (v.Pending? ==> Stands(e.ctrl, t0, ws) && e.ctrl.params == p)
            && (!v.Pending? ==> e.ctrl.phase == Idle && Answered(e.log, v, ws[..Decided(p, t0, ws)]))
  {
    hide Stands, Answered, Judge, Update;
    var p := s.ctrl.params;
    if ws == [] {
    } else {
      var n := |ws| - 1;
      var before := Feed(s, ws[..n]);
      FeedDecides(s, t0, ws[..n]);
      assert ws[..n] + [ws[n]] == ws;
      if Verdicts(p, t0, ws[..n]).Pending? {
        FrameUpdate(before.ctrl, before.log, t0, ws[..n], ws[n]);
        assert ws[..n + 1] == ws;
      } else {
        IdleUpdate(before.ctrl, before.log, ws[n]);
        var d := Decided(p, t0, ws[..n]);
        assert ws[..n][..d] == ws[..d];
      }
    }
  }

  /** Settling lasts at most max(1, frames) updates, whatever the frames are. */
  lemma {:induction false} SettlingEnds(s: System, t0: int, ws: seq<World>)
    requires Stands(s.ctrl, t0, [])
    requires |ws| >= 1 && |ws| >= s.ctrl.params.frames
    ensures Feed(s, ws).ctrl.phase == Idle
  {
    FeedDecides(s, t0, ws);
  }

  /** What success and timeout mean, in terms of the frames alone. */
  lemma VerdictMeaning(p: SettleParams, t0: int, fs: seq<World>)
    requires fs != []
    ensures Judge(p, t0, fs).Settled? <==>
              || |fs| >= p.frames
              || (exists k :: 0 <= k < |fs| && LongStreak(p, fs, k))
    ensures Judge(p, t0, fs).TimedOut? <==>
              !Judge(p, t0, fs).Settled? && Seconds(fs[|fs| - 1].now - t0) >= p.timeoutSec
  {
    var k := StreakStart(p, fs);
    if StreakSuffices(p, fs) {
      assert LongStreak(p, fs, k);
    }
    forall j | 0 <= j < |fs| && LongStreak(p, fs, j) ensures j == k && StreakSuffices(p, fs) {
    }
  }

  /** Frames k to the end are locked and within tolerance, k is the first such, and they span the settle time. */
  ghost predicate LongStreak(p: SettleParams, fs: seq<World>, k: nat)
    requires k < |fs|
  {
    && (forall i :: k <= i < |fs| ==> fs[i].locked && fs[i].guideError <= p.tolerancePx)
    && (k > 0 ==> !(fs[k - 1].locked && fs[k - 1].guideError <= p.tolerancePx))
    && (if k == |fs| - 1 then p.settleTimeSec <= 0
        else Seconds(fs[|fs| - 1].now - fs[k].now) >= p.settleTimeSec && !fs[|fs| - 1].aoBump)
  }

  /** When a pending settling is judged settled by a streak of more than one frame, the streak spans the settle
      time in milliseconds: a non-positive settle time would already have ended it at its first frame. */
  lemma {:induction false} StreakSpansSettleTime(p: SettleParams, t0: int, fs: seq<World>, k: nat)
    requires |fs| >= 2 && k < |fs| - 1 && LongStreak(p, fs, k)
    requires Verdicts(p, t0, fs[..|fs| - 1]).Pending?
    ensures p.settleTimeSec > 0
    ensures fs[|fs| - 1].now - fs[k].now >= 1000 * p.settleTimeSec
  {
    PendingPrefix(p, t0, fs[..|fs| - 1], k + 1);
    var g := fs[..|fs| - 1][..k + 1];
    assert g == fs[..k + 1];
    assert InRange(p, g[k]);
    assert g[..k] == fs[..k];
    StreakEdge(p, fs, k);
  }

  lemma StreakEdge(p: SettleParams, fs: seq<World>, k: nat)
    requires k < |fs| && InRange(p, fs[k]) && (k > 0 ==> !InRange(p, fs[k - 1]))
    ensures StreakStart(p, fs[..k + 1]) == k
  {
    assert fs[..k + 1] == fs[..k] + [fs[k]];
    StreakSnoc(p, fs[..k], fs[k]);
  }

  lemma {:induction false} PendingPrefix(p: SettleParams, t0: int, fs: seq<World>, n: nat)
    requires Verdicts(p, t0, fs).Pending? && 0 < n <= |fs|
    ensures Verdicts(p, t0, fs[..n]).Pending? && Judge(p, t0, fs[..n]).Pending?
    decreases |fs|
  {
    if n == |fs| {
      assert fs[..n] == fs;
    } else {
      PendingPrefix(p, t0, fs[..|fs| - 1], n);
      assert fs[..|fs| - 1][..n] == fs[..n];
    }
  }

  /** Entering the settling starts it with no frames, for every operation that gets that far. */
  lemma SettlingStarts(c: Ctrl, log: seq<Event>, w: World)
    requires c.phase == SettleBegin
    ensures Stands(PassSettleBegin(c, log, w).ctrl, w.now, []) && PassSettleBegin(c, log, w).ctrl.params == c.params
    ensures PassSettleBegin(c, log, w).done
  {
  }

  /** An accepted dither leaves the controller at the start of a settling. */
  lemma DitherStarts(s: System, r: DitherRequest, env: nat -> World)
    requires s.ctrl.phase == Idle && !r.fails
    ensures var o := DitherOp(s, r, env);
            o.ok && Stands(o.ctrl, env(0).now, []) && o.ctrl.params == r.settle
  {
    var c := s.ctrl;
    var dec := DecState(c.dec.mode, if Consults(r) then c.dec.mode else DecNone, Overrides(c.dec.mode, r));
    var log := s.log + [Dithered(r.pixels, RaOnly(c.dec.mode, r))] + [Accepted(OpDither)];
    SettlingStarts(c.(phase := SettleBegin, op := OpDither, params := r.settle, dec := dec), log, env(0));
  }

  /**
   A dither from beginning to end: over every trace of frames that follows it, the controller is settling exactly while
   the reference has no verdict, then idle with that verdict reported, and idle after max(1, frames) frames at the
   latest.
   */
  lemma DitherSettles(s: System, r: DitherRequest, env: nat -> World, ws: seq<World>)
    requires s.ctrl.phase == Idle && !r.fails
    ensures var o := DitherOp(s, r, env);
            var e, v := Feed(System(o.ctrl, o.log), ws), Verdicts(r.settle, env(0).now, ws);
            && (e.ctrl.phase == SettleWait <==> v.Pending?)
            && (!v.Pending? ==> e.ctrl.phase == Idle && Answered(e.log, v, ws[..Decided(r.settle, env(0).now, ws)]))
            && (|ws| >= 1 && |ws| >= r.settle.frames ==> e.ctrl.phase == Idle)
  {
    DitherStarts(s, r, env);
    var o := DitherOp(s, r, env);
    FeedDecides(System(o.ctrl, o.log), env(0).now, ws);
    if |ws| >= 1 && |ws| >= r.settle.frames {
      SettlingEnds(System(o.ctrl, o.log), env(0).now, ws);
    }
  }
}
