/**
 Backlash compensation in declination: a pulse is added whenever the direction reverses, and its size is adapted
 from a bounded history of what the pulses achieved.
 */
module BacklashCompensation {
  import opened Options
  import opened Reals

  const MIN_COMP_AMOUNT := 20
  const MAX_COMP_AMOUNT := 8000
  const ENTRY_CAPACITY := 3
  const HISTORY_DEPTH := 10

  datatype Direction = NoDirection | Up | Down

  datatype Correction = Correction(timeSeconds: int, miss: real)

  datatype BlcEvent = BlcEvent(
    corrections: seq<Correction>, initialOvershoot: bool, initialUndershoot: bool, stictionSeen: bool)

  function Round(x: real): int {
    (x + 0.5).Floor
  }

  /** One to three deflections, and the flags mean what the second and third of them say. */
  ghost predicate ValidEvent(e: BlcEvent) {
    && 1 <= |e.corrections| <= ENTRY_CAPACITY
    && (e.initialOvershoot ==> |e.corrections| >= 2 && e.corrections[1].miss < 0.0)
    && (e.initialUndershoot ==> |e.corrections| >= 2 && e.corrections[1].miss > 0.0)
    && (e.stictionSeen ==> |e.corrections| == 3 && e.corrections[1].miss > 0.0 && e.corrections[2].miss < 0.0)
  }

  ghost predicate AllValid(es: seq<BlcEvent>) {
    forall k :: 0 <= k < |es| ==> ValidEvent(es[k])
  }

  function NewEvent(time: int, amount: real): (e: BlcEvent)
    ensures ValidEvent(e)
  {
    BlcEvent([Correction(time, amount)], false, false, false)
  }

  function WithDeflection(e: BlcEvent, time: int, amount: real, minMove: real): (r: BlcEvent)
    requires ValidEvent(e) && minMove >= 0.0
    ensures ValidEvent(r)
    ensures |r.corrections| == if |e.corrections| < 3 then |e.corrections| + 1 else 3
    ensures |e.corrections| == 3 ==> r == e
  {
    if |e.corrections| >= 3 then e
    else
      var longer := e.(corrections := e.corrections + [Correction(time, amount)]);
      if Abs(amount) <= minMove then longer
      else if |longer.corrections| == 2 then
        if amount > 0.0 then longer.(initialUndershoot := true) else longer.(initialOvershoot := true)
      else longer.(stictionSeen := amount < 0.0 && e.corrections[1].miss > 0.0)
  }

  /** The history with a deflection noted in its newest event. */
  function Noted(es: seq<BlcEvent>, time: int, miss: real, minMove: real): (r: seq<BlcEvent>)
    requires es != [] && ValidEvent(es[|es| - 1]) && minMove >= 0.0
    ensures |r| == |es|
  {
    es[|es| - 1 := WithDeflection(es[|es| - 1], time, miss, minMove)]
  }

  // ----- statistics and pruning of the history

  datatype Flag = Overshoot | Stiction

  predicate Has(e: BlcEvent, f: Flag) {
    match f case Overshoot => e.initialOvershoot case Stiction => e.stictionSeen
  }

  function Count(es: seq<BlcEvent>, f: Flag): nat {
    if es == [] then 0 else (if Has(es[0], f) then 1 else 0) + Count(es[1..], f)
  }

  /** How many events have a first follow-on deflection, and the sum of those. */
  function MissCount(es: seq<BlcEvent>): nat {
    if es == [] then 0 else (if |es[0].corrections| > 1 then 1 else 0) + MissCount(es[1..])
  }

  function MissSum(es: seq<BlcEvent>): real {
    if es == [] then 0.0 else (if |es[0].corrections| > 1 then es[0].corrections[1].miss else 0.0) + MissSum(es[1..])
  }

  function StictionSum(es: seq<BlcEvent>): real {
    if es == [] then 0.0
    else (if es[0].stictionSeen && |es[0].corrections| > 2 then es[0].corrections[2].miss else 0.0)
         + StictionSum(es[1..])
  }

  datatype Stats = Stats(
    shortCount: int, longCount: int, stictionCount: int, avgInitialMiss: real, avgStictionAmount: real)

  function Average(sum: real, n: nat): real {
    if n > 0 then sum / (n as real) else 0.0
  }

  function StatsOf(es: seq<BlcEvent>): Stats {
    Stats(|es| - Count(es, Overshoot), Count(es, Overshoot), Count(es, Stiction),
          Average(MissSum(es), MissCount(es)), Average(StictionSum(es), Count(es, Stiction)))
  }

  /** The list without its first event from k on that has the flag; the newest event never goes. */
  function PrunedFrom(es: seq<BlcEvent>, f: Flag, k: nat): (r: seq<BlcEvent>)
    requires k <= |es|
    ensures |r| <= |es| <= |r| + 1
    ensures es != [] ==> r != [] && r[|r| - 1] == es[|es| - 1]
    ensures AllValid(es) ==> AllValid(r)
    decreases |es| - k
  {
    if k >= |es| - 1 then es
    else if Has(es[k], f) then es[..k] + es[k + 1..]
    else PrunedFrom(es, f, k + 1)
  }

  /** Nothing is taken exactly if no event but the newest has the flag. */
  lemma {:induction false} PrunedWhole(es: seq<BlcEvent>, f: Flag, k: nat)
    requires k <= |es|
    ensures |PrunedFrom(es, f, k)| == |es| <==> forall j :: k <= j < |es| - 1 ==> !Has(es[j], f)
    decreases |es| - k
  {
    if k >= |es| - 1 || Has(es[k], f) {
    } else {
      PrunedWhole(es, f, k + 1);
    }
  }

  function PrunedTimes(es: seq<BlcEvent>, f: Flag, n: nat): (r: seq<BlcEvent>)
    ensures |r| <= |es|
    ensures es != [] ==> r != [] && r[|r| - 1] == es[|es| - 1]
    ensures AllValid(es) ==> AllValid(r)
  {
    if n == 0 then es else PrunedFrom(PrunedTimes(es, f, n - 1), f, 0)
  }

  // ----- the decision

  datatype Decision = Decision(adjust: bool, correction: int, prune: Option<Flag>, close: bool)

  const LEAVE := Decision(false, 0, None, false)

  /** The unsigned pulse correction for a deflection, in milliseconds. */
  function Milliseconds(deflection: real, yRate: real): int
    requires yRate > 0.0
  {
    (Abs(deflection) / yRate).Floor
  }

  lemma MulOrder(x: real, y: real, d: real)
    requires x <= y && d > 0.0
    ensures x * d <= y * d
  {
  }

  lemma MulOrderStrict(x: real, y: real, d: real)
    requires x < y && d > 0.0
    ensures x * d < y * d
  {
  }

  lemma FloorBounds(x: real, d: real)
    requires x >= 0.0 && d > 0.0
    ensures (x / d).Floor >= 0
    ensures (x / d).Floor as real * d <= x < ((x / d).Floor as real + 1.0) * d
  {
    var q := x / d;
    assert q * d == x;
    var n := q.Floor as real;
    assert n <= q < n + 1.0;
    MulOrder(n, q, d);
    MulOrderStrict(q, n + 1.0, d);
    calc {
      x;
      q * d;
    <
      (n + 1.0) * d;
    }
    assert q >= 0.0;
  }

  /** The correction is the number of whole milliseconds in the deflection. */
  lemma WholeMilliseconds(deflection: real, yRate: real)
    requires yRate > 0.0
    ensures Milliseconds(deflection, yRate) >= 0
    ensures Spanned(Milliseconds(deflection, yRate), yRate) <= Abs(deflection)
            < Spanned(Milliseconds(deflection, yRate) + 1, yRate)
  {
    FloorBounds(Abs(deflection), yRate);
  }

  function Spanned(n: int, yRate: real): real {
    (n as real) * yRate
  }

  lemma SpannedStep(m: int, n: int, yRate: real)
    requires yRate > 0.0
    ensures m <= n ==> Spanned(m, yRate) <= Spanned(n, yRate)
    ensures Spanned(n + 1, yRate) == Spanned(n, yRate) + yRate
  {
    if m <= n {
      MulOrder(m as real, n as real, yRate);
    }
    assert (n + 1) as real == n as real + 1.0;
  }

  /** No other number of milliseconds comes closer to the deflection. */
  ghost predicate Nearest(deflection: real, yRate: real, n: int) {
    forall m: int :: Abs(Abs(deflection) - Spanned(n, yRate)) <= Abs(Abs(deflection) - Spanned(m, yRate))
  }

  /** The correction is the nearest number of milliseconds exactly if no more than half a millisecond is cut off. */
  lemma NearestExactly(deflection: real, yRate: real)
    requires yRate > 0.0
    ensures var n := Milliseconds(deflection, yRate);
            Nearest(deflection, yRate, n) <==> Abs(deflection) - Spanned(n, yRate) <= yRate / 2.0
  {
    var n, x := Milliseconds(deflection, yRate), Abs(deflection);
    WholeMilliseconds(deflection, yRate);
    SpannedStep(n, n, yRate);
    assert Spanned(n, yRate) <= x < Spanned(n + 1, yRate);
    if x - Spanned(n, yRate) <= yRate / 2.0 {
      forall m: int ensures Abs(x - Spanned(n, yRate)) <= Abs(x - Spanned(m, yRate)) {
        if m <= n {
          SpannedStep(m, n, yRate);
        } else {
          SpannedStep(n + 1, m, yRate);
        }
      }
    }
    if Nearest(deflection, yRate, n) {
      assert Abs(x - Spanned(n, yRate)) <= Abs(x - Spanned(n + 1, yRate));
    }
  }

  /** Three quarters of a millisecond make no correction at all. */
  lemma ThreeQuartersCutOff()
    ensures Milliseconds(0.75, 1.0) == 0 && !Nearest(0.75, 1.0, 0)
  {
    NearestExactly(0.75, 1.0);
  }

  /** Whether and how to adjust after a miss, from the history whose newest event the miss belongs to. */
  function Decide(es: seq<BlcEvent>, miss: real, minMove: real, yRate: real): Decision
    requires es != [] && yRate > 0.0
  {
    var s, e := StatsOf(es), es[|es| - 1];
    var corr := Milliseconds(s.avgInitialMiss, yRate);
    if Abs(miss) < minMove then LEAVE
    else if miss > 0.0 then
      if s.avgInitialMiss <= 0.0 then LEAVE.(close := true)
      else if |e.corrections| == ENTRY_CAPACITY && s.stictionCount <= 2 && s.longCount < 2
      then Decision(true, corr, None, true)
      else LEAVE
    else if e.stictionSeen then
      if s.stictionCount > 1 then Decision(true, -Milliseconds(s.avgStictionAmount, yRate), Some(Stiction), true)
      else LEAVE
    else if s.longCount > s.shortCount && |es| >= 5 then Decision(true, -corr, Some(Overshoot), true)
    else if s.avgInitialMiss <= -0.1 then Decision(true, -corr, None, true)
    else LEAVE.(close := true)
  }

  function AfterPruning(es: seq<BlcEvent>, prune: Option<Flag>): (r: seq<BlcEvent>)
    ensures |r| <= |es|
    ensures es != [] ==> r != [] && r[|r| - 1] == es[|es| - 1]
    ensures AllValid(es) ==> AllValid(r)
  {
    match prune
    case None => es
    case Some(Stiction) => PrunedTimes(es, Stiction, 1)
    case Some(Overshoot) => PrunedTimes(es, Overshoot, 2)
  }

  /** The decision on a miss once it is noted, and the history then left. */
  function Judgement(es: seq<BlcEvent>, time: int, miss: real, minMove: real, yRate: real): (Decision, seq<BlcEvent>)
    requires es != [] && ValidEvent(es[|es| - 1]) && minMove >= 0.0 && yRate > 0.0
  {
    var noted := Noted(es, time, miss, minMove);
    var d := Decide(noted, miss, minMove, yRate);
    (d, AfterPruning(noted, d.prune))
  }

  lemma JudgementKeeps(es: seq<BlcEvent>, time: int, miss: real, minMove: real, yRate: real)
    requires es != [] && AllValid(es) && minMove >= 0.0 && yRate > 0.0
    ensures var (d, r) := Judgement(es, time, miss, minMove, yRate);
            && r != [] && |r| <= |es| && AllValid(r)
            && |r[|r| - 1].corrections| == Min3(|es[|es| - 1].corrections| + 1)
            && (d.adjust ==> d.close)
  {
    var noted := Noted(es, time, miss, minMove);
    assert AllValid(noted);
    DecisionFollowsMiss(noted, miss, minMove, yRate);
  }

  /** An adjustment goes in the direction of the miss. */
  lemma DecisionFollowsMiss(es: seq<BlcEvent>, miss: real, minMove: real, yRate: real)
    requires es != [] && yRate > 0.0
    ensures var d := Decide(es, miss, minMove, yRate);
            && (d.adjust ==> Abs(miss) >= minMove && d.close)
            && (d.correction > 0 ==> miss > 0.0)
            && (d.correction < 0 ==> miss <= 0.0)
            && (d.adjust && miss > 0.0 ==> |es[|es| - 1].corrections| == 3)
  {
  }

  class BLCHistory {
    var events: seq<BlcEvent>
    var blcIndex: int
    var windowOpen: bool
    var timeBase: int
    var lastIncrease: int
    // since the newest pulse was recorded: how often it was examined, and how often that led to an adjustment
    ghost var examined: nat
    ghost var adjusted: nat

    /** What the indexing in GetStats and AdjustmentNeeded rests on. */
    ghost predicate Valid()
      reads this
    {
      && |events| <= HISTORY_DEPTH && AllValid(events)
      && (windowOpen ==> events != [] && blcIndex == |events| - 1)
      && (windowOpen ==> examined == |events[|events| - 1].corrections| - 1 && adjusted == 0)
      && examined <= 3 && adjusted <= 1
    }

    constructor (now: int)
      ensures Valid() && events == [] && !windowOpen && blcIndex == 0 && timeBase == now
    {
      events, blcIndex, windowOpen, timeBase, lastIncrease := [], 0, false, now, 0;
      examined, adjusted := 0, 0;
    }

    method CloseWindow()
      requires Valid()
      modifies this`windowOpen
      ensures Valid() && !windowOpen
    {
      windowOpen := false;
    }

    method RecordNewBLCPulse(when: int, triggerDeflection: real)
      requires Valid()
      modifies this`events, this`blcIndex, this`windowOpen, this`examined, this`adjusted
      ensures Valid() && windowOpen && examined == 0 && adjusted == 0
      ensures var kept := if |old(events)| >= HISTORY_DEPTH then old(events)[1..] else old(events);
              events == kept + [NewEvent(when - timeBase, triggerDeflection)]
    {
      if |events| >= HISTORY_DEPTH {
        events := events[1..];
      }
      events := events + [NewEvent(when - timeBase, triggerDeflection)];
      blcIndex := |events| - 1;
      windowOpen := true;
      examined, adjusted := 0, 0;
    }

    /** Reached only with an open window. A full event takes nothing more and closes the window. */
    method AddDeflection(when: int, amount: real, minMove: real) returns (added: bool)
      requires Valid() && windowOpen && minMove >= 0.0
      modifies this`events, this`windowOpen, this`examined
      ensures events == Noted(old(events), when - timeBase, amount, minMove)
      ensures added <==> |old(events)[|old(events)| - 1].corrections| < ENTRY_CAPACITY
      ensures windowOpen == added
      ensures examined == old(examined)
      ensures |events| <= HISTORY_DEPTH && AllValid(events)
      ensures blcIndex == |events| - 1 && |events[blcIndex].corrections| == Min3(old(examined) + 2)
    {
      added := false;
      if blcIndex >= 0 && |events[blcIndex].corrections| < ENTRY_CAPACITY {
        events := events[blcIndex := WithDeflection(events[blcIndex], when - timeBase, amount, minMove)];
        added := true;
      } else {
        assert events[blcIndex := events[blcIndex]] == events;
        windowOpen := false;
      }
    }

    /** One scan: erases the first event with the flag, sparing the newest event. */
    method EraseFirst(f: Flag)
      requires events != [] && blcIndex == |events| - 1
      modifies this`events, this`blcIndex
      ensures events == PrunedFrom(old(events), f, 0) && blcIndex == |events| - 1
    {
      var inx := 0;
      while inx < |events| - 1
        invariant 0 <= inx < |events| && events == old(events) && blcIndex == |events| - 1
        invariant PrunedFrom(events, f, 0) == PrunedFrom(events, f, inx)
      {
        if Has(events[inx], f) {
          events := events[..inx] + events[inx + 1..];
          blcIndex := |events| - 1;
          return;
        }
        inx := inx + 1;
      }
    }

    method RemoveOldest(howMany: nat, f: Flag)
      requires events != [] && blcIndex == |events| - 1
      modifies this`events, this`blcIndex
      ensures events == PrunedTimes(old(events), f, howMany) && blcIndex == |events| - 1
    {
      var ct := 1;
      while ct <= howMany
        invariant 1 <= ct <= howMany + 1 && events != [] && blcIndex == |events| - 1
        invariant events == PrunedTimes(old(events), f, ct - 1)
      {
        ghost var was := events;
        EraseFirst(f);
        assert events == PrunedFrom(was, f, 0) == PrunedTimes(old(events), f, ct);
        ct := ct + 1;
      }
    }

    method ClearHistory()
      requires Valid()
      modifies this`events, this`windowOpen
      ensures Valid() && events == [] && !windowOpen
    {
      events := [];
      windowOpen := false;
    }

    /** Statistics of the newest numEvents events, scanned from the newest back. */
    method GetStats(numEvents: int) returns (stats: Stats)
      requires numEvents >= 1 && 0 <= blcIndex < |events| && AllValid(events)
      ensures var bottom := if blcIndex - (numEvents - 1) > 0 then blcIndex - (numEvents - 1) else 0;
              stats == StatsOf(events[bottom..blcIndex + 1])
    {
      var bottom := if blcIndex - (numEvents - 1) > 0 then blcIndex - (numEvents - 1) else 0;
      var sum, stictionSum, ct := 0.0, 0.0, 0;
      var shortCount, longCount, stictionCount := 0, 0, 0;
      var inx := blcIndex;
      ghost var all := events[..blcIndex + 1];
      while inx >= bottom
        invariant bottom - 1 <= inx <= blcIndex
        invariant longCount == Count(all[inx + 1..], Overshoot) && shortCount == blcIndex - inx - longCount
        invariant stictionCount == Count(all[inx + 1..], Stiction) && stictionSum == StictionSum(all[inx + 1..])
        invariant ct == MissCount(all[inx + 1..]) && sum == MissSum(all[inx + 1..])
      {
        var evt := events[inx];
        assert all[inx..][1..] == all[inx + 1..] && all[inx..][0] == evt;
        if evt.initialOvershoot {
          longCount := longCount + 1;
        } else {
          shortCount := shortCount + 1;
        }
        if evt.stictionSeen {
          stictionCount := stictionCount + 1;
          stictionSum := stictionSum + evt.corrections[2].miss;
        }
        if |evt.corrections| > 1 {
          sum := sum + evt.corrections[1].miss;
          ct := ct + 1;
        }
        inx := inx - 1;
      }
      assert all[bottom..] == events[bottom..blcIndex + 1];
      stats := Stats(shortCount, longCount, stictionCount,
                     if ct > 0 then sum / (ct as real) else 0.0,
                     if stictionCount > 0 then stictionSum / (stictionCount as real) else 0.0);
    }

    /** What tracking does with a miss: records it, and asks whether the pulse is to be adjusted. */
    method Examine(now: int, miss: real, minMove: real, yRate: real) returns (adjust: bool, correction: int)
      requires Valid() && windowOpen && minMove >= 0.0 && yRate > 0.0
      modifies this
      ensures Valid() && timeBase == old(timeBase)
      ensures var (d, es) := Judgement(old(events), now - timeBase, miss, minMove, yRate);
              && adjust == d.adjust && correction == d.correction && events == es
              && windowOpen == (old(examined) < 2 && !d.close)
              && examined == old(examined) + 1
              && adjusted == if d.adjust then 1 else 0
    {
      var added := AddDeflection(now, miss, minMove);
      ghost var noted, d := events, Decide(events, miss, minMove, yRate);
      adjust, correction := AdjustmentNeeded(miss, minMove, yRate);
      assert Judgement(old(events), now - timeBase, miss, minMove, yRate) == (d, AfterPruning(noted, d.prune));
      JudgementKeeps(old(events), now - timeBase, miss, minMove, yRate);
      examined := examined + 1;
      if adjust {
        adjusted := adjusted + 1;
      }
    }

    method AdjustmentNeeded(miss: real, minMove: real, yRate: real) returns (adjust: bool, correction: int)
      requires |events| <= HISTORY_DEPTH && AllValid(events)
      requires events != [] && blcIndex == |events| - 1 && |events[blcIndex].corrections| >= 2
      requires yRate > 0.0
      modifies this`events, this`blcIndex, this`windowOpen, this`lastIncrease
      ensures var d := Decide(old(events), miss, minMove, yRate);
              && adjust == d.adjust && correction == d.correction
              && events == AfterPruning(old(events), d.prune)
              && windowOpen == (old(windowOpen) && !d.close)
      ensures blcIndex == |events| - 1
    {
      adjust, correction := false, 0;
      var stats := GetStats(HISTORY_DEPTH);
      assert events[0..blcIndex + 1] == events;
      var currEvent := events[blcIndex];
      if Abs(miss) >= minMove {
        var corr := Milliseconds(stats.avgInitialMiss, yRate);
        if miss > 0.0 {
          if stats.avgInitialMiss > 0.0 {
            if |currEvent.corrections| == ENTRY_CAPACITY {
              if !(stats.stictionCount > 2) && !(stats.longCount >= 2) {
                adjust := true;
                correction := corr;
                lastIncrease := corr;
              }
            }
          } else {
            windowOpen := false;
          }
        } else if currEvent.stictionSeen {
          if stats.stictionCount > 1 {
            correction := -Milliseconds(stats.avgStictionAmount, yRate);
            RemoveOldest(1, Stiction);
            adjust := true;
          }
        } else if stats.longCount > stats.shortCount && blcIndex >= 4 {
          correction := -corr;
          RemoveOldest(2, Overshoot);
          adjust := true;
        } else if stats.avgInitialMiss <= -0.1 {
          correction := -corr;
          adjust := true;
        } else {
          windowOpen := false;
        }
      }
      if adjust {
        windowOpen := false;
      }
    }
  }

  function Min3(n: int): int {
    if n < 3 then n else 3
  }

  // ----- pulse sizes

  /** A signed number compared with an unsigned one: negative ones become large. */
  predicate LessUnsigned(a: int, b: nat) {
    0 <= a < b
  }

  datatype CompValues = CompValues(pulse: int, floor: int, ceiling: int, fixed: bool)

  function Min(a: int, b: int): int {
    if a < b then a else b
  }

  /**
   The settings as they are taken over. The source compares the requested size and the floor with unsigned constants,
   so that a negative one counts as larger than any of them.
   */
  function Rational(requested: int, floor: int, ceiling: int): (v: CompValues)
    ensures InOrder(v)
  {
    var pulse := if 0 <= requested <= MAX_COMP_AMOUNT then requested else MAX_COMP_AMOUNT;
    var low := if floor > pulse || 0 <= floor < MIN_COMP_AMOUNT then MIN_COMP_AMOUNT else floor;
    var high := if ceiling < pulse then Min((1.5 * (pulse as real)).Floor, MAX_COMP_AMOUNT)
                else Min(ceiling, MAX_COMP_AMOUNT);
    CompValues(pulse, low, high, AbsInt(high - low) < MIN_COMP_AMOUNT)
  }

  /** What holds of all settings that have been taken over. */
  ghost predicate InOrder(v: CompValues) {
    && 0 <= v.pulse <= v.ceiling <= MAX_COMP_AMOUNT
    && (v.floor <= v.pulse || v.floor == MIN_COMP_AMOUNT)
    && !(0 <= v.floor < MIN_COMP_AMOUNT)
  }

  function Clamped(requested: int): int {
    if requested < 0 then 0 else Min(requested, MAX_COMP_AMOUNT)
  }

  /** The pulse is the request clamped to the limits exactly if the request is not negative. */
  lemma PulseClamped(requested: int, floor: int, ceiling: int)
    ensures Rational(requested, floor, ceiling).pulse == Clamped(requested) <==> requested >= 0
  {
  }

  /** Settings that are in order stay as they are. */
  lemma RationalKeeps(v: CompValues)
    requires InOrder(v) && v.floor <= v.pulse
    ensures Rational(v.pulse, v.floor, v.ceiling) == v.(fixed := AbsInt(v.ceiling - v.floor) < MIN_COMP_AMOUNT)
  {
  }

  /** The adapted pulse: up by at most a tenth to the ceiling, or down by at most a fifth to the floor. */
  function NewPulse(pulse: int, floor: int, ceiling: int, adjustment: int): int {
    if adjustment > 0 then
      Min(Round(MinReal(pulse as real * 1.1, (pulse + adjustment) as real)), ceiling)
    else
      var low := Round(MaxReal(0.8 * (pulse as real), (pulse + adjustment) as real));
      if low < floor then floor else low
  }

  /** An adaptation stays between floor and ceiling, goes the way of the correction, and is gradual. */
  ghost predicate Gradual(v: CompValues, adjustment: int) {
    var p := NewPulse(v.pulse, v.floor, v.ceiling, adjustment);
    && v.floor <= p <= v.ceiling
    && (adjustment > 0 ==> p >= v.pulse) && (adjustment <= 0 ==> p <= v.pulse)
    && 0.8 * (v.pulse as real) - 0.5 <= p as real <= 1.1 * (v.pulse as real) + 0.5
    && AbsInt(p - v.pulse) <= AbsInt(adjustment)
  }

  /** All adaptations of settings in order are gradual exactly if the pulse has reached the floor. */
  lemma GradualExactly(v: CompValues)
    requires InOrder(v)
    ensures (forall adjustment :: Gradual(v, adjustment)) <==> v.floor <= v.pulse
  {
    assert Gradual(v, 0) ==> v.floor <= v.pulse;
  }

  /** That is to say: for requests of at least 20 ms, and where a negative value passes for a large one. */
  lemma RequestsAdaptGradually(requested: int, floor: int, ceiling: int)
    ensures var v := Rational(requested, floor, ceiling);
            (forall adjustment :: Gradual(v, adjustment))
            <==> requested >= MIN_COMP_AMOUNT || requested < 0 || floor < 0
  {
    GradualExactly(Rational(requested, floor, ceiling));
  }

  /** Settings below the minimum can be adaptable all the same, and then a decrease can double the pulse. */
  lemma SmallPulseDoubled()
    ensures Rational(10, 0, 1000) == CompValues(10, MIN_COMP_AMOUNT, 1000, false)
    ensures NewPulse(10, MIN_COMP_AMOUNT, 1000, -5) == 20
  {
  }

  /** The settings after an adaptation. */
  function Retuned(v: CompValues, adjustment: int): (r: CompValues)
    ensures InOrder(r)
  {
    Rational(NewPulse(v.pulse, v.floor, v.ceiling, adjustment), v.floor, v.ceiling)
  }

  lemma RetunedKeeps(v: CompValues, adjustment: int)
    requires InOrder(v)
    ensures Retuned(v, adjustment).pulse == NewPulse(v.pulse, v.floor, v.ceiling, adjustment)
    ensures v.floor <= v.pulse ==>
              var r := Retuned(v, adjustment);
              r.floor == v.floor && r.ceiling == v.ceiling && r.floor <= r.pulse
  {
  }

  function RetunedAll(v: CompValues, adjustments: seq<int>): CompValues {
    if adjustments == [] then v
    else Retuned(RetunedAll(v, adjustments[..|adjustments| - 1]), adjustments[|adjustments| - 1])
  }

  /** However long the adaptation goes on, floor and ceiling stay and the pulse stays between them. */
  lemma {:induction false} AdaptationBounded(v: CompValues, adjustments: seq<int>)
    requires InOrder(v) && v.floor <= v.pulse
    ensures var r := RetunedAll(v, adjustments);
            InOrder(r) && r.floor == v.floor && r.ceiling == v.ceiling && r.floor <= r.pulse <= r.ceiling
  {
    if adjustments == [] {
    } else {
      var n := |adjustments| - 1;
      AdaptationBounded(v, adjustments[..n]);
      RetunedKeeps(RetunedAll(v, adjustments[..n]), adjustments[n]);
    }
  }

  // ----- the compensation

  function DirectionOf(y: real): Direction {
    if y > 0.0 then Down else Up
  }

  predicate Reverses(last: Direction, y: real) {
    last != NoDirection && DirectionOf(y) != last
  }

  /** More of the same was needed (+) or less (-). */
  function Miss(last: Direction, yRawOffset: real): real {
    if DirectionOf(yRawOffset) == last then Abs(yRawOffset) else -Abs(yRawOffset)
  }

  class BacklashComp {
    const history: BLCHistory
    var compActive: bool
    var lastDirection: Direction
    var adjustmentFloor: int
    var adjustmentCeiling: int
    var pulseWidth: int
    var fixedSize: bool

    ghost predicate Valid()
      reads this, history
    {
      history.Valid() && InOrder(Values())
    }

    /** The pulse has reached the floor. */
    ghost predicate Tuned()
      reads this
    {
      adjustmentFloor <= pulseWidth
    }

    function Values(): CompValues
      reads this
    {
      CompValues(pulseWidth, adjustmentFloor, adjustmentCeiling, fixedSize)
    }

    constructor (lastAmt: int, lastFloor: int, lastCeiling: int, enabled: bool, now: int)
      ensures Valid() && fresh(history) && lastDirection == NoDirection
      ensures Values() == Rational(lastAmt, lastFloor, lastCeiling)
      ensures compActive <==> lastAmt > 0 && enabled
    {
      history := new BLCHistory(now);
      compActive := lastAmt > 0 && enabled;
      lastDirection := NoDirection;
      pulseWidth, adjustmentFloor, adjustmentCeiling, fixedSize := 0, 0, 0, false;
      new;
      SetCompValues(lastAmt, lastFloor, lastCeiling);
    }

    method SetCompValues(requestedSize: int, floor: int, ceiling: int)
      modifies this`pulseWidth, this`adjustmentFloor, this`adjustmentCeiling, this`fixedSize
      ensures Values() == Rational(requestedSize, floor, ceiling)
    {
      pulseWidth := if LessUnsigned(requestedSize, MAX_COMP_AMOUNT) then requestedSize else MAX_COMP_AMOUNT;
      if floor > pulseWidth || LessUnsigned(floor, MIN_COMP_AMOUNT) {
        adjustmentFloor := MIN_COMP_AMOUNT;
      } else {
        adjustmentFloor := floor;
      }
      if ceiling < pulseWidth {
        adjustmentCeiling := Min((1.5 * (pulseWidth as real)).Floor, MAX_COMP_AMOUNT);
      } else {
        adjustmentCeiling := Min(ceiling, MAX_COMP_AMOUNT);
      }
      fixedSize := AbsInt(adjustmentCeiling - adjustmentFloor) < MIN_COMP_AMOUNT;
    }

    method SetBacklashPulseWidth(ms: int, floor: int, ceiling: int)
      requires Valid()
      modifies this`pulseWidth, this`adjustmentFloor, this`adjustmentCeiling, this`fixedSize,
               history`events, history`windowOpen
      ensures Valid()
      ensures var same := ms == old(pulseWidth) && floor == old(adjustmentFloor) && ceiling == old(adjustmentCeiling);
              Values() == if same then old(Values()) else Rational(ms, floor, ceiling)
      ensures if AbsInt(pulseWidth - old(pulseWidth)) > 100
              then history.events == [] && !history.windowOpen
              else history.events == old(history.events) && history.windowOpen == old(history.windowOpen)
    {
      if pulseWidth != ms || adjustmentFloor != floor || adjustmentCeiling != ceiling {
        var oldBLC := pulseWidth;
        SetCompValues(ms, floor, ceiling);
        if AbsInt(pulseWidth - oldBLC) > 100 {
          history.ClearHistory();
          history.CloseWindow();
        }
      }
    }

    method ResetBLCState()
      requires Valid()
      modifies this`lastDirection, history`windowOpen
      ensures Valid()
      ensures if compActive then lastDirection == NoDirection && !history.windowOpen
              else lastDirection == old(lastDirection) && history.windowOpen == old(history.windowOpen)
    {
      if compActive {
        lastDirection := NoDirection;
        history.CloseWindow();
      }
    }

    /** Whether a raw offset is taken as a follow-up to an earlier pulse. */
    predicate Follows(useBlc: bool, algoResult: bool)
      reads this, history
    {
      compActive && useBlc && algoResult && history.windowOpen && !fixedSize
    }

    /** The decision on the raw offset as a follow-up to the newest pulse. */
    ghost function Judged(yRawOffset: real, now: int, algoMinMove: real, yRate: real): (Decision, seq<BlcEvent>)
      requires Valid() && history.windowOpen && yRate > 0.0
      reads this, history
    {
      var minMove, miss := MaxReal(algoMinMove, 0.0), Miss(lastDirection, yRawOffset);
      Judgement(history.events, now - history.timeBase, miss, minMove, yRate)
    }

    /** Records the raw offset, and adapts the pulse size if that is called for. */
    method FollowUp(yRawOffset: real, now: int, algoMinMove: real, yRate: real)
      requires Valid() && yRate > 0.0 && history.windowOpen
      modifies this`pulseWidth, this`adjustmentFloor, this`adjustmentCeiling, this`fixedSize, history
      ensures Valid()
      ensures var (d, es) := old(Judged(yRawOffset, now, algoMinMove, yRate));
              && history.events == es
              && history.windowOpen == (old(history.examined) < 2 && !d.close)
              && history.examined == old(history.examined) + 1
              && history.adjusted == (if d.adjust then 1 else 0)
              && Values() == (if d.adjust then Retuned(old(Values()), d.correction) else old(Values()))
    {
      var dir := if yRawOffset > 0.0 then Down else Up;
      var yDistance := Abs(yRawOffset);
      var miss := if dir == lastDirection then yDistance else -yDistance;
      var minMove := MaxReal(algoMinMove, 0.0);
      ghost var (d, es) := Judged(yRawOffset, now, algoMinMove, yRate);
      assert miss == Miss(lastDirection, yRawOffset);
      var adjust, adjustment := history.Examine(now, miss, minMove, yRate);
      assert adjust == d.adjust && adjustment == d.correction && history.events == es;
      if adjust {
        Adapt(adjustment);
      }
    }

    /** Examines the raw Dec offset as the result of earlier pulses, if it is one. */
    method TrackBLCResults(useBlc: bool, algoResult: bool, yRawOffset: real, now: int, algoMinMove: real, yRate: real)
      requires Valid() && yRate > 0.0
      modifies this`pulseWidth, this`adjustmentFloor, this`adjustmentCeiling, this`fixedSize, this`lastDirection
      modifies history
      ensures Valid()
      ensures old(Tuned()) ==>
                Tuned() && adjustmentFloor == old(adjustmentFloor) && adjustmentCeiling == old(adjustmentCeiling)
      ensures lastDirection == if compActive && !useBlc then NoDirection else old(lastDirection)
      ensures old(Follows(useBlc, algoResult)) ==>
                var (d, es) := old(Judged(yRawOffset, now, algoMinMove, yRate));
                && history.events == es
                && history.windowOpen == (old(history.examined) < 2 && !d.close)
                && history.examined == old(history.examined) + 1
                && history.adjusted == (if d.adjust then 1 else 0)
                && Values() == (if d.adjust then Retuned(old(Values()), d.correction) else old(Values()))
      ensures !old(Follows(useBlc, algoResult)) ==>
                && Values() == old(Values()) && history.events == old(history.events)
                && history.examined == old(history.examined) && history.adjusted == old(history.adjusted)
                && history.windowOpen == (old(history.windowOpen) && (!compActive || (useBlc && algoResult)))
    {
      if !compActive {
        return;
      }
      ghost var v := Values();
      if !useBlc {
        ResetBLCState();
        return;
      }
      if !algoResult {
        history.CloseWindow();
        return;
      }
      if !history.windowOpen || fixedSize {
        return;
      }
      ghost var (d, es) := Judged(yRawOffset, now, algoMinMove, yRate);
      RetunedKeeps(v, d.correction);
      FollowUp(yRawOffset, now, algoMinMove, yRate);
    }

    /** Takes the pulse a limited way toward the nominal size. */
    method Adapt(adjustment: int)
      requires InOrder(Values())
      modifies this`pulseWidth, this`adjustmentFloor, this`adjustmentCeiling, this`fixedSize
      ensures Values() == Retuned(old(Values()), adjustment)
      ensures pulseWidth == NewPulse(old(pulseWidth), old(adjustmentFloor), old(adjustmentCeiling), adjustment)
      ensures old(Tuned()) ==>
                Tuned() && adjustmentFloor == old(adjustmentFloor) && adjustmentCeiling == old(adjustmentCeiling)
    {
      RetunedKeeps(Values(), adjustment);
      var newBLC: int;
      var nominalBLC := (pulseWidth + adjustment) as real;
      if nominalBLC > pulseWidth as real {
        newBLC := Round(MinReal(pulseWidth as real * 1.1, nominalBLC));
        if newBLC > adjustmentCeiling {
          newBLC := adjustmentCeiling;
        }
      } else {
        newBLC := Round(MaxReal(0.8 * (pulseWidth as real), nominalBLC));
        if newBLC < adjustmentFloor {
          newBLC := adjustmentFloor;
        }
      }
      assert newBLC == NewPulse(pulseWidth, adjustmentFloor, adjustmentCeiling, adjustment);
      SetCompValues(newBLC, adjustmentFloor, adjustmentCeiling);
    }

    /** Adds the pulse to a guide amount that reverses the direction. */
    method ApplyBacklashComp(useBlc: bool, algoResult: bool, yGuideDistance: real, yAmount: int, now: int)
      returns (r: int)
      requires Valid()
      modifies this`lastDirection, history
      ensures Valid()
      ensures (lastDirection, r)
              == Applied(useBlc && compActive, pulseWidth, old(lastDirection), yGuideDistance, yAmount)
      ensures var recorded := r != yAmount && algoResult;
              history.events == if recorded
                then (if |old(history.events)| >= HISTORY_DEPTH then old(history.events)[1..] else old(history.events))
                     + [NewEvent(now - old(history.timeBase), yGuideDistance)]
                else old(history.events)
      ensures history.windowOpen == if r == yAmount then old(history.windowOpen) else algoResult
    {
      r := yAmount;
      if !useBlc || !compActive || pulseWidth <= 0 || yGuideDistance == 0.0 {
        return;
      }
      var dir := if yGuideDistance > 0.0 then Down else Up;
      if lastDirection != NoDirection && dir != lastDirection {
        r := r + pulseWidth;
        if algoResult {
          history.RecordNewBLCPulse(now, yGuideDistance);
        } else {
          history.CloseWindow();
        }
      }
      lastDirection := dir;
    }
  }

  /** The direction remembered and the amount to move, given whether compensation takes part. */
  function Applied(active: bool, pulse: int, last: Direction, y: real, amount: int): (Direction, int) {
    if !active || pulse <= 0 || y == 0.0 then (last, amount)
    else (DirectionOf(y), if Reverses(last, y) then amount + pulse else amount)
  }
}
