/**
 What the compensation learns from its history: which deflections the statistics speak of, what they decide, and that
 the adapted pulse comes to the backlash and stays there.
 */
module BacklashLearning {
  import opened Options
  import opened Reals
  import opened BacklashCompensation

  // ----- what the statistics measure

  function Sum(xs: seq<real>): real {
    if xs == [] then 0.0 else xs[0] + Sum(xs[1..])
  }

  /** The first deflections after the pulses, of the events that have got so far. */
  function FirstMisses(es: seq<BlcEvent>): seq<real> {
    if es == [] then []
    else (if |es[0].corrections| >= 2 then [es[0].corrections[1].miss] else []) + FirstMisses(es[1..])
  }

  /** The second deflections of the events with stiction. */
  function StickingMisses(es: seq<BlcEvent>): seq<real> {
    if es == [] then []
    else (if es[0].stictionSeen && |es[0].corrections| >= 3 then [es[0].corrections[2].miss] else [])
         + StickingMisses(es[1..])
  }

  ghost function With(es: seq<BlcEvent>, f: Flag): set<nat> {
    set i: nat | i < |es| && Has(es[i], f)
  }

  lemma SumCons(x: real, xs: seq<real>)
    ensures Sum([x] + xs) == x + Sum(xs)
  {
    assert ([x] + xs)[1..] == xs;
  }

  lemma {:induction false} MissesSummed(es: seq<BlcEvent>)
    requires AllValid(es)
    ensures MissSum(es) == Sum(FirstMisses(es)) && MissCount(es) == |FirstMisses(es)|
    ensures StictionSum(es) == Sum(StickingMisses(es)) && Count(es, Stiction) == |StickingMisses(es)|
  {
    if es == [] {
    } else {
      MissesSummed(es[1..]);
      var c := es[0].corrections;
      assert ValidEvent(es[0]);
      if |c| >= 2 {
        SumCons(c[1].miss, FirstMisses(es[1..]));
      } else {
        assert FirstMisses(es) == FirstMisses(es[1..]);
      }
      if es[0].stictionSeen {
        SumCons(c[2].miss, StickingMisses(es[1..]));
      } else {
        assert StickingMisses(es) == StickingMisses(es[1..]);
      }
    }
  }

  lemma {:induction false} CountFrom(es: seq<BlcEvent>, f: Flag, k: nat)
    requires k <= |es|
    ensures Count(es[k..], f) == |set i: nat | k <= i < |es| && Has(es[i], f)|
    decreases |es| - k
  {
    if k == |es| {
    } else {
      CountFrom(es, f, k + 1);
      assert es[k..][1..] == es[k + 1..] && es[k..][0] == es[k];
      assert (set i: nat | k <= i < |es| && Has(es[i], f))
          == (set i: nat | k + 1 <= i < |es| && Has(es[i], f)) + if Has(es[k], f) then {k} else {};
    }
  }

  lemma CountIsNumber(es: seq<BlcEvent>, f: Flag)
    ensures Count(es, f) == |With(es, f)|
  {
    CountFrom(es, f, 0);
    assert es[0..] == es;
    assert With(es, f) == set i: nat | 0 <= i < |es| && Has(es[i], f);
  }

  lemma AverageTimes(sum: real, n: nat)
    ensures Product(Average(sum, n), n as real) == if n > 0 then sum else 0.0
  {
    if n > 0 {
      Quotient(sum, n as real);
    }
  }

  /**
   The statistics: the average initial miss is the mean of exactly the first deflections after the pulses, the average
   stiction that of exactly the second ones where there was stiction; the long ones are the events with an overshoot and
   the short ones all others.
   */
  lemma StatsMeasure(es: seq<BlcEvent>)
    requires AllValid(es)
    ensures var s := StatsOf(es);
            && Product(s.avgInitialMiss, |FirstMisses(es)| as real) == Sum(FirstMisses(es))
            && (FirstMisses(es) == [] ==> s.avgInitialMiss == 0.0)
            && Product(s.avgStictionAmount, |StickingMisses(es)| as real) == Sum(StickingMisses(es))
            && (StickingMisses(es) == [] ==> s.avgStictionAmount == 0.0)
            && s.longCount == |With(es, Overshoot)| && s.shortCount == |es| - |With(es, Overshoot)|
            && s.stictionCount == |With(es, Stiction)| == |StickingMisses(es)|
  {
    MissesSummed(es);
    CountIsNumber(es, Overshoot);
    CountIsNumber(es, Stiction);
    AverageTimes(MissSum(es), MissCount(es));
    AverageTimes(StictionSum(es), Count(es, Stiction));
  }

  ghost predicate AllBetween(xs: seq<real>, lo: real, hi: real) {
    forall i :: 0 <= i < |xs| ==> lo <= xs[i] <= hi
  }

  lemma {:induction false} SumBetween(xs: seq<real>, lo: real, hi: real)
    requires AllBetween(xs, lo, hi)
    ensures Product(lo, |xs| as real) <= Sum(xs) <= Product(hi, |xs| as real)
  {
    if xs == [] {
    } else {
      SumBetween(xs[1..], lo, hi);
      var n := |xs| - 1;
      assert |xs| as real == n as real + 1.0;
      Distributes(lo, n as real, 1.0);
      Distributes(hi, n as real, 1.0);
      Unit(lo);
      Unit(hi);
    }
  }

  lemma MeanBetween(m: real, xs: seq<real>, lo: real, hi: real)
    requires xs != [] && Product(m, |xs| as real) == Sum(xs) && AllBetween(xs, lo, hi)
    ensures lo <= m <= hi
  {
    SumBetween(xs, lo, hi);
    var n := |xs| as real;
    Commutes(m, n);
    Commutes(lo, n);
    Commutes(hi, n);
    if m < lo { StrictlyMonotone(n, m, lo); }
    if m > hi { StrictlyMonotone(n, hi, m); }
  }

  /** The averages lie between the smallest and the largest of the deflections that they speak of. */
  lemma AveragesBetween(es: seq<BlcEvent>, lo: real, hi: real)
    requires AllValid(es)
    ensures FirstMisses(es) != [] && AllBetween(FirstMisses(es), lo, hi) ==> lo <= StatsOf(es).avgInitialMiss <= hi
    ensures StickingMisses(es) != [] && AllBetween(StickingMisses(es), lo, hi) ==>
              lo <= StatsOf(es).avgStictionAmount <= hi
  {
    StatsMeasure(es);
    var s := StatsOf(es);
    if FirstMisses(es) != [] && AllBetween(FirstMisses(es), lo, hi) {
      MeanBetween(s.avgInitialMiss, FirstMisses(es), lo, hi);
    }
    if StickingMisses(es) != [] && AllBetween(StickingMisses(es), lo, hi) {
      MeanBetween(s.avgStictionAmount, StickingMisses(es), lo, hi);
    }
  }

  /** The same history but for the deflections that triggered the pulses, and the times. */
  ghost predicate SameOutcomes(es: seq<BlcEvent>, fs: seq<BlcEvent>) {
    |es| == |fs| && forall i :: 0 <= i < |es| ==> SameOutcome(es[i], fs[i])
  }

  ghost predicate SameOutcome(e: BlcEvent, f: BlcEvent) {
    && |e.corrections| == |f.corrections|
    && (forall j :: 1 <= j < |e.corrections| ==> e.corrections[j].miss == f.corrections[j].miss)
    && e.initialOvershoot == f.initialOvershoot && e.initialUndershoot == f.initialUndershoot
    && e.stictionSeen == f.stictionSeen
  }

  lemma {:induction false} SameSums(es: seq<BlcEvent>, fs: seq<BlcEvent>)
    requires SameOutcomes(es, fs)
    ensures MissSum(es) == MissSum(fs) && MissCount(es) == MissCount(fs) && StictionSum(es) == StictionSum(fs)
    ensures Count(es, Overshoot) == Count(fs, Overshoot) && Count(es, Stiction) == Count(fs, Stiction)
  {
    if es == [] {
    } else {
      assert SameOutcome(es[0], fs[0]);
      SameSums(es[1..], fs[1..]);
    }
  }

  /** What triggered the pulses never matters, neither to the statistics nor to a decision. */
  lemma TriggersDoNotMatter(es: seq<BlcEvent>, fs: seq<BlcEvent>, miss: real, minMove: real, yRate: real)
    requires es != [] && SameOutcomes(es, fs) && yRate > 0.0
    ensures StatsOf(es) == StatsOf(fs) && Decide(es, miss, minMove, yRate) == Decide(fs, miss, minMove, yRate)
  {
    SameSums(es, fs);
    assert SameOutcome(es[|es| - 1], fs[|fs| - 1]);
  }

  // ----- what is decided

  /** The mean of the deflections, 0 of none. */
  ghost predicate IsMean(m: real, xs: seq<real>) {
    Product(m, |xs| as real) == Sum(xs) && (xs == [] ==> m == 0.0)
  }

  lemma MeanUnique(a: real, b: real, xs: seq<real>)
    requires IsMean(a, xs) && IsMean(b, xs)
    ensures a == b
  {
    if xs != [] {
      Cancel(a, b, |xs| as real);
    }
  }

  /**
   When the pulse is adjusted and by how much. A deflection of at least the minimum move asks for more if the mean of
   the first misses is above zero, the event is complete, and there are at most two events with stiction and one with an
   overshoot; it asks for less after stiction that is not the first, after more overshoots than not in at least five
   events, or if the mean is at most -0.1. The amount is the mean in milliseconds: of the sticking misses after
   stiction, of the first misses else. No more follow-ups are looked at after an adjustment, nor when nothing is to be
   learnt.
   */
  lemma AdjustsExactly(es: seq<BlcEvent>, miss: real, minMove: real, yRate: real, m: real, k: real)
    requires AllValid(es) && es != [] && yRate > 0.0
    requires IsMean(m, FirstMisses(es)) && IsMean(k, StickingMisses(es))
    ensures var d, e := Decide(es, miss, minMove, yRate), es[|es| - 1];
            var long, sticking := |With(es, Overshoot)|, |With(es, Stiction)|;
            && (d.adjust <==>
                  && Abs(miss) >= minMove
                  && if miss > 0.0 then m > 0.0 && |e.corrections| == 3 && sticking <= 2 && long <= 1
                     else if e.stictionSeen then sticking >= 2
                     else (|es| >= 5 && 2 * long > |es|) || m <= -0.1)
            && (d.adjust ==>
                  d.correction == if miss > 0.0 then (Abs(m) / yRate).Floor
                                  else if e.stictionSeen then -(Abs(k) / yRate).Floor else -(Abs(m) / yRate).Floor)
            && (!d.adjust ==> d.correction == 0)
            && (d.close <==> d.adjust || (Abs(miss) >= minMove && if miss > 0.0 then m <= 0.0 else !e.stictionSeen))
            && d.prune == (if !d.adjust || miss > 0.0 then None
                           else if e.stictionSeen then Some(Stiction)
                           else if |es| >= 5 && 2 * long > |es| then Some(Overshoot) else None)
  {
    StatsMeasure(es);
    MeanUnique(m, StatsOf(es).avgInitialMiss, FirstMisses(es));
    MeanUnique(k, StatsOf(es).avgStictionAmount, StickingMisses(es));
  }

  /** What a pulse and its two follow-on deflections leave in the history. */
  lemma FlagsMean(time: int, trigger: real, t1: int, d1: real, t2: int, d2: real, minMove: real)
    requires minMove >= 0.0
    ensures var e := WithDeflection(WithDeflection(NewEvent(time, trigger), t1, d1, minMove), t2, d2, minMove);
            && e.corrections == [Correction(time, trigger), Correction(t1, d1), Correction(t2, d2)]
            && (e.initialUndershoot <==> d1 > minMove) && (e.initialOvershoot <==> d1 < -minMove)
            && (e.stictionSeen <==> d1 > 0.0 && d2 < -minMove)
  {
  }

  /** A first pulse that is too short twice over is lengthened by the whole milliseconds of its first miss. */
  lemma FirstUndershoot(time: int, trigger: real, t1: int, d1: real, t2: int, d2: real, minMove: real, yRate: real)
    requires minMove >= 0.0 && yRate > 0.0 && d1 > 0.0 && d1 >= minMove && d2 > 0.0 && d2 >= minMove
    ensures var e := NewEvent(time, trigger);
            var (first, es) := Judgement([e], t1, d1, minMove, yRate);
            && first == LEAVE && |es| == 1 && AllValid(es)
            && Judgement(es, t2, d2, minMove, yRate).0 == Decision(true, (d1 / yRate).Floor, None, true)
  {
    var e := NewEvent(time, trigger);
    var e1 := WithDeflection(e, t1, d1, minMove);
    var e2 := WithDeflection(e1, t2, d2, minMove);
    assert Noted([e], t1, d1, minMove) == [e1] && Noted([e1], t2, d2, minMove) == [e2];
    OneEvent(e1, d1);
    OneEvent(e2, d1);
  }

  lemma OneEvent(e: BlcEvent, d: real)
    requires ValidEvent(e) && |e.corrections| >= 2 && e.corrections[1].miss == d
    ensures var s := StatsOf([e]);
            && s.avgInitialMiss == d && s.longCount == (if e.initialOvershoot then 1 else 0)
            && s.stictionCount == (if e.stictionSeen then 1 else 0)
  {
    assert [e][1..] == [];
    assert d / 1.0 == d;
    assert MissSum([e]) == d + MissSum([]) && MissCount([e]) == 1;
    assert Count([e], Overshoot) == (if e.initialOvershoot then 1 else 0) + Count([], Overshoot);
    assert Count([e], Stiction) == (if e.stictionSeen then 1 else 0) + Count([], Stiction);
  }

  /** A first pulse that is too long is shortened at once by the whole milliseconds of its miss. */
  lemma FirstOvershoot(time: int, trigger: real, t1: int, d1: real, minMove: real, yRate: real)
    requires minMove >= 0.0 && yRate > 0.0 && d1 <= -0.1 && d1 <= -minMove
    ensures Judgement([NewEvent(time, trigger)], t1, d1, minMove, yRate).0
         == Decision(true, -(-d1 / yRate).Floor, None, true)
  {
    var e := NewEvent(time, trigger);
    var e1 := WithDeflection(e, t1, d1, minMove);
    assert Noted([e], t1, d1, minMove) == [e1];
    OneEvent(e1, d1);
  }

  /** What still has to be made up in the direction of the last pulse counts as positive. */
  lemma MissSigned(y: real)
    ensures Miss(Down, y) == y && (y != 0.0 ==> Miss(Up, y) == -y)
  {
  }

  /** Pruning takes the oldest event with the flag, never the newest event. */
  lemma {:induction false} PrunesOldest(es: seq<BlcEvent>, f: Flag, k: nat, j: nat)
    requires k <= j < |es| - 1 && Has(es[j], f) && forall i :: k <= i < j ==> !Has(es[i], f)
    ensures PrunedFrom(es, f, k) == es[..j] + es[j + 1..]
    decreases j - k
  {
    if k == j {
    } else {
      PrunesOldest(es, f, k + 1, j);
    }
  }

  // ----- the size of the pulse

  /** The new pulse is the nominal one, held by a tenth above or a fifth below the old and by ceiling and floor. */
  lemma NewPulseExactly(pulse: int, floor: int, ceiling: int, adjustment: int)
    ensures var p := NewPulse(pulse, floor, ceiling, adjustment);
            var most, least := Round(pulse as real * 1.1), Round(0.8 * (pulse as real));
            if adjustment > 0 then
              p <= pulse + adjustment && p <= most && p <= ceiling && p in {pulse + adjustment, most, ceiling}
            else
              p >= pulse + adjustment && p >= least && p >= floor && p in {pulse + adjustment, least, floor}
  {
    RoundWhole(pulse + adjustment);
  }

  lemma RoundWhole(n: int)
    ensures Round(n as real) == n
  {
  }

  /** A ceiling below the pulse is raised to half as much again, a floor above the pulse or below 20 is set to 20. */
  lemma LimitsTaken(requested: int, floor: int, ceiling: int)
    requires 0 <= requested <= 8000 && floor >= 0
    ensures var v := Rational(requested, floor, ceiling);
            && v.pulse == requested
            && v.floor == (if floor > requested || floor < 20 then 20 else floor)
            && (ceiling >= requested ==> v.ceiling == if ceiling < 8000 then ceiling else 8000)
            && (ceiling < requested ==>
                  v.ceiling == 8000 || (2 * v.ceiling <= 3 * requested < 2 * v.ceiling + 2))
            && (v.fixed <==> -20 < v.ceiling - v.floor < 20)
  {
    var h := (1.5 * (requested as real)).Floor;
    assert h as real <= 1.5 * (requested as real) < h as real + 1.0;
  }

  // ----- learning the backlash

  /** Adaptation after pulse upon pulse, each of which falls short of the backlash by what is missing from it. */
  function Learned(v: CompValues, backlash: int, n: nat): CompValues {
    if n == 0 then v
    else
      var w := Learned(v, backlash, n - 1);
      if w.pulse == backlash then w else Retuned(w, backlash - w.pulse)
  }

  lemma PulseApproaches(pulse: int, floor: int, ceiling: int, backlash: int)
    requires 20 <= floor <= pulse <= ceiling && floor <= backlash <= ceiling && pulse != backlash
    ensures var p := NewPulse(pulse, floor, ceiling, backlash - pulse);
            && floor <= p <= ceiling
            && (if pulse < backlash then pulse < p <= backlash else backlash <= p < pulse)
  {
    NewPulseExactly(pulse, floor, ceiling, backlash - pulse);
    var most, least := Round(pulse as real * 1.1), Round(0.8 * (pulse as real));
    assert most >= pulse + 2 && least <= pulse - 3;
  }

  /** The pulse only ever comes closer to the backlash, is it after a number of adaptations, and then stays. */
  lemma {:induction false} LearnsBacklash(v: CompValues, backlash: int, n: nat)
    requires InOrder(v) && 20 <= v.floor <= v.pulse && v.floor <= backlash <= v.ceiling
    ensures var w := Learned(v, backlash, n);
            && InOrder(w) && w.floor == v.floor && w.ceiling == v.ceiling && w.floor <= w.pulse
            && AbsInt(backlash - w.pulse) <= AbsInt(backlash - v.pulse)
            && (n >= AbsInt(backlash - v.pulse) ==> w.pulse == backlash)
            && (n < AbsInt(backlash - v.pulse) ==> AbsInt(backlash - w.pulse) <= AbsInt(backlash - v.pulse) - n)
  {
    hide NewPulse, Retuned, Rational;
    if n == 0 {
    } else {
      LearnsBacklash(v, backlash, n - 1);
      var w := Learned(v, backlash, n - 1);
      if w.pulse != backlash {
        PulseApproaches(w.pulse, w.floor, w.ceiling, backlash);
        RetunedKeeps(w, backlash - w.pulse);
      }
    }
  }
}
