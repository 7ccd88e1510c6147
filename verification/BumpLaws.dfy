/**
 What the bump controller keeps over whole runs: the average stays in the travel box and the weight in its range, when a
 bump is in progress, how long a scheduled bump can be, and when a bump comes to an end.
 */
module BumpLaws {
  import opened Options
  import opened Reals
  import opened StepGuiding
  import opened AoBump

  ghost predicate AverageInTravel(e: Env, s: State) {
    s.avg.Some? ==>
      && -((e.limits.left - 1) as real) <= s.avg.value.x <= (e.limits.right - 1) as real
      && -((e.limits.down - 1) as real) <= s.avg.value.y <= (e.limits.up - 1) as real
  }

  ghost predicate WeightInRange(e: Env, w: real)
    requires ValidEnv(e)
  {
    MinReal(1.0, Cap(e)) <= w <= MaxReal(1.0, Cap(e))
  }

  /** Moves leave the unit inside its travel limits. */
  ghost predicate Travels(e: Env, ev: Event) {
    ev.Move? ==> InBox(e.limits, ev.step.pos)
  }

  function RunFrom(e: Env, s: State, events: seq<Event>): State
    requires ValidEnv(e)
  {
    if events == [] then s
    else Next(e, RunFrom(e, s, events[..|events| - 1]), events[|events| - 1])
  }

  lemma NextKeeps(e: Env, s: State, ev: Event)
    requires ValidEnv(e) && Travels(e, ev)
    requires AverageInTravel(e, s) && WeightInRange(e, s.weight)
    ensures AverageInTravel(e, Next(e, s, ev)) && WeightInRange(e, Next(e, s, ev).weight)
  {
    if ev.Move? {
      var p := ev.step.pos;
      assert Room(e.limits, p, Up) >= 0 && Room(e.limits, p, Down) >= 0;
      assert Room(e.limits, p, Left) >= 0 && Room(e.limits, p, Right) >= 0;
    }
  }

  /** On every run the average stays in the travel box and the weight between 1 and the cap. */
  lemma {:induction false} RunKeeps(e: Env, events: seq<Event>)
    requires ValidEnv(e)
    requires forall i :: 0 <= i < |events| ==> Travels(e, events[i])
    ensures AverageInTravel(e, RunFrom(e, INITIAL, events))
    ensures WeightInRange(e, RunFrom(e, INITIAL, events).weight)
  {
    if events == [] {
    } else {
      var n := |events| - 1;
      RunKeeps(e, events[..n]);
      NextKeeps(e, RunFrom(e, INITIAL, events[..n]), events[n]);
    }
  }

  // ----- when a bump is in progress

  predicate Reconsiders(ev: Event) {
    ev.Move? && Normal(ev.step)
  }

  /** A bump was asked for and no frame since could have taken the request. */
  ghost predicate ForcedAt(events: seq<Event>, k: nat)
    requires k <= |events|
  {
    exists i :: 0 <= i < k && events[i] == Forced && Pending(events, i, k)
  }

  ghost predicate Pending(events: seq<Event>, i: nat, k: nat)
    requires k <= |events|
  {
    forall j :: i < j < k ==> !Reconsiders(events[j]) && events[j] != Stopped
  }

  ghost predicate StartsAt(e: Env, events: seq<Event>, k: nat)
    requires ValidEnv(e) && k < |events|
  {
    Reconsiders(events[k]) && (Outside(e, events[k].step.pos) || ForcedAt(events, k))
  }

  ghost predicate EndsAt(e: Env, events: seq<Event>, k: nat)
    requires ValidEnv(e) && k < |events|
  {
    || events[k] == Stopped
    || (&& Reconsiders(events[k])
        && (!Outside(e, events[k].step.pos) || ForcedAt(events, k))
        && NearCentre(e, Averaged(RunFrom(e, INITIAL, events[..k]).avg, events[k].step.pos)))
  }

  ghost predicate Lasts(e: Env, events: seq<Event>, k: nat)
    requires ValidEnv(e)
  {
    forall j :: k <= j < |events| ==> !EndsAt(e, events, j)
  }

  lemma {:induction false} ForcedHistory(e: Env, events: seq<Event>)
    requires ValidEnv(e)
    ensures RunFrom(e, INITIAL, events).forced <==> ForcedAt(events, |events|)
  {
    if events == [] {
    } else {
      var n := |events| - 1;
      var before, ev := events[..n], events[n];
      ForcedHistory(e, before);
      ForcedPrefix(events, n, n);
      if ev == Forced {
        assert Pending(events, n, n + 1);
      } else if Reconsiders(ev) || ev == Stopped {
        forall i | 0 <= i <= n && events[i] == Forced ensures !Pending(events, i, n + 1) {
          assert i < n;
        }
      } else {
        ForcedGrows(events, n);
      }
    }
  }

  lemma ForcedGrows(events: seq<Event>, n: nat)
    requires n + 1 == |events| && events[n] != Forced && !Reconsiders(events[n]) && events[n] != Stopped
    ensures ForcedAt(events, n + 1) <==> ForcedAt(events, n)
  {
    if ForcedAt(events, n) {
      var i :| 0 <= i < n && events[i] == Forced && Pending(events, i, n);
      assert Pending(events, i, n + 1);
    }
    if ForcedAt(events, n + 1) {
      var i :| 0 <= i < n + 1 && events[i] == Forced && Pending(events, i, n + 1);
      assert Pending(events, i, n);
    }
  }

  lemma ForcedPrefix(events: seq<Event>, n: nat, k: nat)
    requires k <= n <= |events|
    ensures ForcedAt(events, k) <==> ForcedAt(events[..n], k)
  {
    var before := events[..n];
    if ForcedAt(events, k) {
      var i :| 0 <= i < k && events[i] == Forced && Pending(events, i, k);
      assert before[i] == Forced && Pending(before, i, k);
    }
    if ForcedAt(before, k) {
      var i :| 0 <= i < k && before[i] == Forced && Pending(before, i, k);
      forall j | i < j < k ensures !Reconsiders(events[j]) && events[j] != Stopped {
        assert before[j] == events[j];
      }
      assert events[i] == Forced && Pending(events, i, k);
    }
  }

  lemma StartEndPrefix(e: Env, events: seq<Event>, n: nat, k: nat)
    requires ValidEnv(e) && k < n <= |events|
    ensures StartsAt(e, events, k) <==> StartsAt(e, events[..n], k)
    ensures EndsAt(e, events, k) <==> EndsAt(e, events[..n], k)
  {
    ForcedPrefix(events, n, k);
    assert events[..n][..k] == events[..k];
  }

  /**
   On every run: a bump is in progress exactly if some frame found the unit outside the bump zone or a bump asked for,
   and since then neither did guiding stop nor did a frame inside the zone (or a forced one) find the average within
   the centre tolerance.
   */
  lemma {:induction false} BumpHistory(e: Env, events: seq<Event>)
    requires ValidEnv(e)
    ensures RunFrom(e, INITIAL, events).active <==>
            exists k :: 0 <= k < |events| && StartsAt(e, events, k) && Lasts(e, events, k)
  {
    if events == [] {
    } else {
      var n := |events| - 1;
      var before := events[..n];
      BumpHistory(e, before);
      ForcedHistory(e, before);
      ForcedPrefix(events, n, n);
      forall k | 0 <= k < n
        ensures StartsAt(e, events, k) == StartsAt(e, before, k)
        ensures EndsAt(e, events, k) == EndsAt(e, before, k)
      {
        StartEndPrefix(e, events, n, k);
      }
      LastEvent(e, events);
    }
  }

  lemma LastEvent(e: Env, events: seq<Event>)
    requires ValidEnv(e) && events != []
    requires var n := |events| - 1; var before := events[..n];
             && (RunFrom(e, INITIAL, before).active <==>
                 exists k :: 0 <= k < n && StartsAt(e, before, k) && Lasts(e, before, k))
             && (RunFrom(e, INITIAL, before).forced <==> ForcedAt(events, n))
             && (forall k :: 0 <= k < n ==> StartsAt(e, events, k) == StartsAt(e, before, k))
             && (forall k :: 0 <= k < n ==> EndsAt(e, events, k) == EndsAt(e, before, k))
    ensures RunFrom(e, INITIAL, events).active <==>
            exists k :: 0 <= k < |events| && StartsAt(e, events, k) && Lasts(e, events, k)
  {
    var n := |events| - 1;
    var before := events[..n];
    if RunFrom(e, INITIAL, events).active {
      assert !EndsAt(e, events, n);
      if RunFrom(e, INITIAL, before).active {
        var k :| 0 <= k < n && StartsAt(e, before, k) && Lasts(e, before, k);
        assert StartsAt(e, events, k) && Lasts(e, events, k);
      } else {
        assert StartsAt(e, events, n) && Lasts(e, events, n);
      }
    }
    if k :| 0 <= k < |events| && StartsAt(e, events, k) && Lasts(e, events, k) {
      assert !EndsAt(e, events, n);
      if k < n {
        assert StartsAt(e, before, k) && Lasts(e, before, k);
      }
    }
  }

  // ----- how long a bump can be

  lemma ScaledLength(k: real, a: Point)
    ensures Sq(Scale(k, a)) == Product(Square(k), Sq(a))
  {
    SquareOfProduct(a.x, k);
    SquareOfProduct(a.y, k);
    Commutes(Square(a.x), Square(k));
    Commutes(Square(a.y), Square(k));
    Distributes(Square(k), Square(a.x), Square(a.y));
  }

  /** Limiting a bump shortens it to the star offset and leaves shorter ones alone. */
  lemma CutLength(sqrt: real -> real, b: Point, offset: Point)
    requires IsSqrt(sqrt)
    ensures Sq(Cut(sqrt, b, offset)) == MinReal(Sq(b), Sq(offset))
  {
    SqNonneg(offset);
    if Sq(b) > Sq(offset) {
      var q := Sq(offset) / Sq(b);
      ScaledLength(sqrt(q), b);
      QuotientNonneg(Sq(offset), Sq(b));
      Quotient(Sq(offset), Sq(b));
    }
  }

  lemma QuotientNonneg(a: real, b: real)
    requires a >= 0.0 && b > 0.0
    ensures a / b >= 0.0
  {
  }

  lemma LargeLength(e: Env, sqrt: real -> real, offset: Point)
    requires IsSqrt(sqrt)
    ensures Sq(Large(e, sqrt, offset)) == MinReal(0.49 * Sq(offset), Square(HalfMove(e)))
  {
    var b := Scale(0.70, offset);
    ScaledLength(0.70, offset);
    if Sq(b) > Square(HalfMove(e)) {
      SquareSign(HalfMove(e));
      RootPositive(sqrt, Sq(b));
      var r := sqrt(Sq(b));
      ScaledLength(HalfMove(e) / r, b);
      SquareOfProduct(HalfMove(e) / r, r);
      Quotient(HalfMove(e), r);
    }
  }

  lemma AlongScaled(v: real, pixels: real, len: real)
    requires len != 0.0
    ensures Along(v, pixels, len) == Product(v / len, pixels)
  {
    Quotient(Product(v, pixels), len);
    Quotient(v, len);
    calc {
      Product(Product(v / len, pixels), len);
      { Associates(v / len, pixels, len); Commutes(pixels, len); Associates(v / len, len, pixels); }
      Product(v, pixels);
    }
    Cancel(Along(v, pixels, len), Product(v / len, pixels), len);
  }

  lemma Normalised(v: Point, len: real)
    requires len != 0.0 && Square(len) == Sq(v)
    ensures Square(v.x / len) + Square(v.y / len) == 1.0
  {
    var (x, y) := (v.x / len, v.y / len);
    Quotient(v.x, len);
    Quotient(v.y, len);
    SquareOfProduct(x, len);
    SquareOfProduct(y, len);
    Commutes(Square(x), Square(len));
    Commutes(Square(y), Square(len));
    Distributes(Square(len), Square(x), Square(y));
    Unit(Square(len));
    SquareSign(len);
    Commutes(Square(len), Square(x) + Square(y));
    Cancel(Square(x) + Square(y), 1.0, Square(len));
  }

  lemma PixelsBounded(e: Env, rate: real, weight: real)
    requires ValidEnv(e) && weight >= 0.0 && 0.0 < rate <= MaxReal(e.xRate, e.yRate)
    ensures 0.0 <= Pixels(rate, e.maxSteps, weight) <= Product(MovePx(e), weight)
  {
    var most := MaxReal(e.xRate, e.yRate);
    Monotone(e.maxSteps, rate, most);
    Commutes(e.maxSteps, rate);
    Commutes(e.maxSteps, most);
    Positive(rate, e.maxSteps);
    Monotone(weight, Product(rate, e.maxSteps), MovePx(e));
    Monotone(weight, 0.0, Product(rate, e.maxSteps));
    Commutes(weight, Product(rate, e.maxSteps));
    Commutes(weight, MovePx(e));
    Unit(weight);
  }

  /** No bump of a given weight is longer than that many steps of the faster axis. */
  lemma RawLength(e: Env, v: Point, len: real, weight: real)
    requires ValidEnv(e) && weight >= 0.0 && len != 0.0 && Square(len) == Sq(v)
    ensures Sq(Raw(e, v, len, weight)) <= Square(Product(MovePx(e), weight))
  {
    var (mx, my) := (Pixels(e.xRate, e.maxSteps, weight), Pixels(e.yRate, e.maxSteps, weight));
    var longest := Product(MovePx(e), weight);
    PixelsBounded(e, e.xRate, weight);
    PixelsBounded(e, e.yRate, weight);
    SquareMonotone(mx, longest);
    SquareMonotone(my, longest);
    AlongScaled(v.x, mx, len);
    AlongScaled(v.y, my, len);
    SquareOfProduct(v.x / len, mx);
    SquareOfProduct(v.y / len, my);
    Normalised(v, len);
    SquareSign(v.x / len);
    SquareSign(v.y / len);
    Mixture(Square(v.x / len), Square(v.y / len), Square(mx), Square(my), Square(longest));
  }

  /** A scheduled bump is never longer than the star offset, nor longer than its kind allows. */
  lemma ScheduledLength(e: Env, sqrt: real -> real, s: State, st: Step)
    requires ValidEnv(e) && IsSqrt(sqrt) && s.weight >= 0.0
    requires Averages(st) ==> s.avg.Some?
    requires Schedule(e, sqrt, s, st).Bump?
    ensures var b := Schedule(e, sqrt, s, st).size;
            && Sq(b) <= Sq(st.offset)
            && (st.limited ==> Sq(b) == MinReal(0.49 * Sq(st.offset), Square(HalfMove(e))))
            && (!st.limited ==> Sq(b) <= Square(Product(MovePx(e), Used(e, s.weight, st.settling))))
  {
    SqNonneg(st.offset);
    if st.limited {
      LargeLength(e, sqrt, st.offset);
    } else {
      var v := Homeward(e, s.avg.value);
      SqNonneg(v);
      var w := Used(e, s.weight, st.settling);
      RawLength(e, v, sqrt(Sq(v)), w);
      CutLength(sqrt, Raw(e, v, sqrt(Sq(v)), w), st.offset);
    }
  }

  lemma Rotated(c: real, s: real, x: real, y: real)
    ensures Square(Product(c, x) - Product(s, y)) + Square(Product(s, x) + Product(c, y))
            == Product(Square(c) + Square(s), Square(x) + Square(y))
  {
  }

  lemma TurnedLength(e: Env, a: Point)
    requires Square(e.cos) + Square(e.sin) == 1.0
    ensures Sq(Turned(e, a)) == Sq(a)
  {
    var y := if e.mirrored then -a.y else a.y;
    Rotated(e.cos, e.sin, a.x, y);
    SquareNegated(a.y);
    Unit(Square(a.x) + Square(y));
  }

  lemma RootZero(sqrt: real -> real, a: real)
    requires IsSqrt(sqrt) && a >= 0.0
    ensures sqrt(a) == 0.0 <==> a == 0.0
  {
    SquareSign(sqrt(a));
  }

  lemma ZeroLength(a: Point)
    ensures Sq(a) == 0.0 <==> a == Point(0.0, 0.0)
  {
    SquareSign(a.x);
    SquareSign(a.y);
  }

  lemma ZeroFactor(a: real, b: real)
    requires a != 0.0
    ensures Product(a, b) == 0.0 <==> b == 0.0
  {
    Unit(a);
    Commutes(a, b);
    Commutes(a, 0.0);
    if Product(a, b) == 0.0 {
      Cancel(b, 0.0, a);
    }
  }

  lemma TurnedZero(e: Env, a: Point)
    requires Square(e.cos) + Square(e.sin) == 1.0
    ensures Sq(Turned(e, a)) == 0.0 <==> a == Point(0.0, 0.0)
  {
    TurnedLength(e, a);
    ZeroLength(a);
  }

  lemma HomewardLength(e: Env, avg: Point)
    requires ValidEnv(e)
    ensures Sq(Homeward(e, avg)) == 0.0 <==> avg == Point(0.0, 0.0)
  {
    ZeroFactor(e.xRate, -avg.x);
    ZeroFactor(e.yRate, -avg.y);
    TurnedZero(e, Point(Product(e.xRate, -avg.x), Product(e.yRate, -avg.y)));
  }

  lemma HomewardZero(e: Env, sqrt: real -> real, avg: Point)
    requires ValidEnv(e) && IsSqrt(sqrt)
    ensures sqrt(Sq(Homeward(e, avg))) == 0.0 <==> avg == Point(0.0, 0.0)
  {
    HomewardLength(e, avg);
    SqNonneg(Homeward(e, avg));
    RootZero(sqrt, Sq(Homeward(e, avg)));
  }

  /** The size of a bump is undefined exactly if a gentle bump is due while the average sits exactly at the centre. */
  lemma UndefinedExactly(e: Env, sqrt: real -> real, s: State, st: Step)
    requires ValidEnv(e) && IsSqrt(sqrt)
    requires Averages(st) ==> s.avg.Some?
    ensures Schedule(e, sqrt, s, st) == Undefined <==>
            Averages(st) && s.active && !Busy(st) && !st.limited && s.avg.value == Point(0.0, 0.0)
  {
    if Averages(st) {
      HomewardZero(e, sqrt, s.avg.value);
    }
  }

  /** Gentle bumps of this weight stay within half of the search region. */
  ghost predicate StaysWithinHalf(e: Env, sqrt: real -> real, weight: real) {
    forall avg, offset ::
      var b := Gradual(e, sqrt, avg, weight, offset);
      b.Some? ==> Sq(b.value) <= Square(HalfMove(e))
  }

  lemma CapMeans(e: Env, weight: real)
    requires ValidEnv(e) && weight >= 0.0
    ensures weight <= Cap(e) <==> Square(Product(MovePx(e), weight)) <= Square(HalfMove(e))
  {
    Quotient(HalfMove(e), MovePx(e));
    Commutes(Cap(e), MovePx(e));
    if weight <= Cap(e) {
      Monotone(MovePx(e), weight, Cap(e));
    } else {
      StrictlyMonotone(MovePx(e), Cap(e), weight);
    }
    Monotone(MovePx(e), 0.0, weight);
    Unit(MovePx(e));
    SquareMonotone(Product(MovePx(e), weight), HalfMove(e));
  }

  lemma CappedStays(e: Env, sqrt: real -> real, weight: real, avg: Point, offset: Point)
    requires ValidEnv(e) && IsSqrt(sqrt) && 0.0 <= weight <= Cap(e)
    ensures var b := Gradual(e, sqrt, avg, weight, offset);
            b.Some? ==> Sq(b.value) <= Square(HalfMove(e))
  {
    var v := Homeward(e, avg);
    SqNonneg(v);
    var len := sqrt(Sq(v));
    if len != 0.0 {
      RawLength(e, v, len, weight);
      CutLength(sqrt, Raw(e, v, len, weight), offset);
      CapMeans(e, weight);
    }
  }

  lemma TurnBack(c: real, s: real, x: real, y: real)
    requires Square(c) + Square(s) == 1.0
    ensures Product(c, Product(c, x) + Product(s, y)) - Product(s, Product(c, y) - Product(s, x)) == x
    ensures Product(s, Product(c, x) + Product(s, y)) + Product(c, Product(c, y) - Product(s, x)) == y
  {
    calc {
      Product(c, Product(c, x) + Product(s, y)) - Product(s, Product(c, y) - Product(s, x));
      Product(Square(c) + Square(s), x);
      { Unit(x); }
      x;
    }
    calc {
      Product(s, Product(c, x) + Product(s, y)) + Product(c, Product(c, y) - Product(s, x));
      Product(Square(c) + Square(s), y);
      { Unit(y); }
      y;
    }
  }

  /** An average from which the way home is the given vector. */
  lemma WayHome(e: Env, v: Point) returns (avg: Point)
    requires ValidEnv(e)
    ensures Homeward(e, avg) == v
  {
    var x := Product(e.cos, v.x) + Product(e.sin, v.y);
    var y := Product(e.cos, v.y) - Product(e.sin, v.x);
    var y' := if e.mirrored then -y else y;
    avg := Point(-(x / e.xRate), -(y' / e.yRate));
    Quotient(x, e.xRate);
    Quotient(y', e.yRate);
    Commutes(x / e.xRate, e.xRate);
    Commutes(y' / e.yRate, e.yRate);
    TurnBack(e.cos, e.sin, v.x, v.y);
  }

  lemma UnitRoot(sqrt: real -> real)
    requires IsSqrt(sqrt)
    ensures sqrt(1.0) == 1.0
  {
    var r := sqrt(1.0);
    Unit(1.0);
    SquareMonotone(r, 1.0);
    SquareMonotone(1.0, r);
  }

  /** Straight along the faster axis, with the star far enough away, a bump has its full length. */
  lemma FullLength(e: Env, sqrt: real -> real, weight: real) returns (avg: Point, offset: Point)
    requires ValidEnv(e) && IsSqrt(sqrt)
    ensures var b := Gradual(e, sqrt, avg, weight, offset);
            b.Some? && Sq(b.value) == Square(Product(MovePx(e), weight))
  {
    var v := if e.xRate > e.yRate then Point(1.0, 0.0) else Point(0.0, 1.0);
    avg := WayHome(e, v);
    UnitRoot(sqrt);
    Unit(1.0);
    Unit(0.0);
    offset := Raw(e, v, 1.0, weight);
    Unit(Pixels(e.xRate, e.maxSteps, weight));
    Unit(Pixels(e.yRate, e.maxSteps, weight));
    assert Sq(offset) == Square(Product(MovePx(e), weight));
  }

  /** A weight keeps every gentle bump within half of the search region exactly if it is no larger than the cap. */
  lemma WithinHalfExactly(e: Env, sqrt: real -> real, weight: real)
    requires ValidEnv(e) && IsSqrt(sqrt) && weight >= 0.0
    ensures StaysWithinHalf(e, sqrt, weight) <==> weight <= Cap(e)
  {
    if weight <= Cap(e) {
      forall avg, offset
        ensures var b := Gradual(e, sqrt, avg, weight, offset);
                b.Some? ==> Sq(b.value) <= Square(HalfMove(e))
      {
        CappedStays(e, sqrt, weight, avg, offset);
      }
    }
    if StaysWithinHalf(e, sqrt, weight) {
      var avg, offset := FullLength(e, sqrt, weight);
      CapMeans(e, weight);
    }
  }

  lemma SameSign(v: real, pixels: real, len: real)
    requires pixels >= 0.0 && len > 0.0
    ensures Product(Along(v, pixels, len), v) >= 0.0
  {
    var u := v / len;
    AlongScaled(v, pixels, len);
    Quotient(v, len);
    assert Product(Product(u, pixels), Product(u, len)) == Product(Square(u), Product(pixels, len));
    Monotone(len, 0.0, pixels);
    Commutes(len, pixels);
    Unit(len);
    SquareSign(u);
    Monotone(Square(u), 0.0, Product(pixels, len));
    Unit(Square(u));
  }

  lemma ScaledSign(a: real, v: real, k: real)
    requires k >= 0.0 && Product(a, v) >= 0.0
    ensures Product(Product(a, k), v) >= 0.0
  {
    Commutes(a, k);
    Associates(k, a, v);
    Monotone(k, 0.0, Product(a, v));
    Unit(k);
  }

  /** A gentle bump never moves away from the centre along either camera axis. */
  lemma BumpsHomeward(e: Env, sqrt: real -> real, avg: Point, weight: real, offset: Point)
    requires ValidEnv(e) && IsSqrt(sqrt) && weight >= 0.0 && Gradual(e, sqrt, avg, weight, offset).Some?
    ensures var b := Gradual(e, sqrt, avg, weight, offset).value; var v := Homeward(e, avg);
            Product(b.x, v.x) >= 0.0 && Product(b.y, v.y) >= 0.0
  {
    var v := Homeward(e, avg);
    SqNonneg(v);
    var len := sqrt(Sq(v));
    PixelsBounded(e, e.xRate, weight);
    PixelsBounded(e, e.yRate, weight);
    SameSign(v.x, Pixels(e.xRate, e.maxSteps, weight), len);
    SameSign(v.y, Pixels(e.yRate, e.maxSteps, weight), len);
    var b := Raw(e, v, len, weight);
    SqNonneg(offset);
    if Sq(b) > Sq(offset) {
      QuotientNonneg(Sq(offset), Sq(b));
      var k := sqrt(Sq(offset) / Sq(b));
      ScaledSign(b.x, v.x, k);
      ScaledSign(b.y, v.y, k);
    }
  }

  // ----- when a bump comes to an end

  /** A normal frame with the unit exactly at its centre. */
  ghost predicate AtCentre(ev: Event) {
    Reconsiders(ev) && ev.step.pos == Position(0, 0)
  }

  ghost predicate AllAtCentre(events: seq<Event>) {
    forall i :: 0 <= i < |events| ==> AtCentre(events[i])
  }

  /** How the square of a distance shrinks over n frames at the centre. */
  function Decay(n: nat): real {
    if n == 0 then 1.0 else 0.4489 * Decay(n - 1)
  }

  /** What is left of a squared distance. */
  function Remaining(n: nat, q: real): real {
    Product(Decay(n), q)
  }

  lemma RemainingStep(n: nat, q: real)
    requires q >= 0.0
    ensures Remaining(0, q) == q && Remaining(n + 1, q) == 0.4489 * Remaining(n, q) && Remaining(n, q) >= 0.0
  {
    DecayBound(n);
    Monotone(Decay(n), 0.0, q);
    Unit(Decay(n));
    Unit(q);
    Associates(0.4489, Decay(n), q);
  }

  function AverageSqOf(avg: Option<Point>): real {
    if avg.Some? then Sq(avg.value) else 0.0
  }

  function AverageSq(s: State): real {
    AverageSqOf(s.avg)
  }

  function Threshold(e: Env): (t: real)
    requires ValidEnv(e)
    ensures t >= 0.0
  {
    assert Tolerance(e) >= 0;
    NaturalSquare(Tolerance(e));
    (Tolerance(e) * Tolerance(e)) as real
  }

  lemma NaturalSquare(n: nat)
    ensures n * n >= 0
  {
  }

  lemma AverageShrinks(avg: Option<Point>, p: Position) returns (a: Point)
    requires p == Position(0, 0)
    ensures a == Averaged(avg, p) && Sq(a) == 0.4489 * AverageSqOf(avg)
  {
    a := Averaged(avg, p);
    if avg.Some? {
      assert a == Scale(0.67, avg.value);
      ScaledLength(0.67, avg.value);
    }
  }

  lemma CentreState(e: Env, s: State, st: Step, a: Point)
    requires ValidEnv(e) && Normal(st) && !Outside(e, st.pos) && a == Averaged(s.avg, st.pos)
    ensures var s' := After(e, s, st);
            s'.avg == Some(a) && !s'.forced && (s'.active <==> (s.active || s.forced) && !NearCentre(e, a))
  {
  }

  lemma NotOutside(e: Env, p: Position)
    requires ValidEnv(e) && p == Position(0, 0)
    ensures !Outside(e, p)
  {
  }

  lemma CentreFrame(e: Env, s: State, ev: Event)
    requires ValidEnv(e) && AtCentre(ev)
    ensures var s' := Next(e, s, ev);
            && s'.avg.Some? && AverageSq(s') == 0.4489 * AverageSq(s)
            && !s'.forced
            && (s'.active <==> (s.active || s.forced) && AverageSq(s') > Threshold(e))
  {
    var a := AverageShrinks(s.avg, ev.step.pos);
    NotOutside(e, ev.step.pos);
    CentreState(e, s, ev.step, a);
  }

  lemma AverageSqNonneg(s: State)
    ensures AverageSq(s) >= 0.0
  {
    if s.avg.Some? {
      SqNonneg(s.avg.value);
    }
  }

  /** After any number of frames at the centre a bump is still in progress exactly while the average is too far out. */
  lemma {:induction false} CentreRun(e: Env, s: State, events: seq<Event>)
    requires ValidEnv(e) && AllAtCentre(events) && events != []
    ensures var s' := RunFrom(e, s, events);
            && AverageSq(s') == Remaining(|events|, AverageSq(s))
            && !s'.forced
            && (s'.active <==> (s.active || s.forced) && Remaining(|events|, AverageSq(s)) > Threshold(e))
  {
    var n := |events| - 1;
    var before := events[..n];
    assert AtCentre(events[n]);
    CentreFrame(e, RunFrom(e, s, before), events[n]);
    AverageSqNonneg(s);
    RemainingStep(n, AverageSq(s));
    if n == 0 {
    } else {
      CentreRun(e, s, before);
    }
  }

  lemma {:induction false} DecayBound(n: nat)
    ensures Decay(n) > 0.0
    ensures Product(Decay(n), n as real) <= 1.0
  {
    if n > 0 {
      DecayBound(n - 1);
      var d, m := Decay(n - 1), (n - 1) as real;
      assert n as real == m + 1.0;
      Associates(0.4489, d, m + 1.0);
      Distributes(d, m, 1.0);
      Unit(d);
      if n > 1 {
        Monotone(d, 1.0, m);
      }
    } else {
      Unit(1.0);
    }
  }

  lemma BoundedRemaining(d: real, q: real, n: real, t: real)
    requires d >= 0.0 && t >= 0.0 && q <= Product(n, t) && Product(d, n) <= 1.0
    ensures Product(d, q) <= t
  {
    Monotone(d, q, Product(n, t));
    Associates(d, n, t);
    Monotone(t, Product(d, n), 1.0);
    Commutes(t, Product(d, n));
    Unit(t);
  }

  /** At the centre a bump ends after at most this many frames. */
  lemma CentreEnds(e: Env, s: State, events: seq<Event>)
    requires ValidEnv(e) && AllAtCentre(events) && events != []
    requires AverageSq(s) <= Product(|events| as real, Threshold(e))
    ensures !RunFrom(e, s, events).active
  {
    CentreRun(e, s, events);
    DecayBound(|events|);
    BoundedRemaining(Decay(|events|), AverageSq(s), |events| as real, Threshold(e));
  }

  ghost predicate EndsWithin(e: Env, s: State, n: nat)
    requires ValidEnv(e)
  {
    forall events :: |events| == n && AllAtCentre(events) ==> !RunFrom(e, s, events).active
  }

  ghost predicate EndsEventually(e: Env, s: State)
    requires ValidEnv(e)
  {
    exists n: nat :: n > 0 && EndsWithin(e, s, n)
  }

  lemma SomeCount(e: Env, s: State)
    requires ValidEnv(e) && e.limits.up >= 5
    ensures EndsEventually(e, s)
  {
    AverageSqNonneg(s);
    var t := Tolerance(e);
    assert t >= 1;
    assert t * t >= 1;
    var n := AverageSq(s).Floor + 1;
    Monotone(n as real, 1.0, Threshold(e));
    Unit(n as real);
    forall events | |events| == n && AllAtCentre(events) ensures !RunFrom(e, s, events).active {
      CentreEnds(e, s, events);
    }
    assert EndsWithin(e, s, n);
  }

  // ----- the warning

  ghost predicate AlertsAt(e: Env, events: seq<Event>, k: nat)
    requires ValidEnv(e) && k < |events|
  {
    events[k].Move? && Alerts(RunFrom(e, INITIAL, events[..k]), events[k].step)
  }

  lemma {:induction false} AlertedStays(e: Env, events: seq<Event>, i: nat, k: nat)
    requires ValidEnv(e) && i <= k <= |events|
    requires RunFrom(e, INITIAL, events[..i]).alerted
    requires forall j :: i <= j < k ==> events[j] != Stopped && !StartsAt(e, events, j)
    ensures RunFrom(e, INITIAL, events[..k]).alerted
  {
    if i == k {
    } else {
      AlertedStays(e, events, i, k - 1);
      assert events[..k][..k - 1] == events[..k - 1];
      ForcedHistory(e, events[..k - 1]);
      ForcedPrefix(events, k - 1, k - 1);
      assert !StartsAt(e, events, k - 1);
    }
  }

  /** Between two warnings about slow bumps guiding stopped or another bump could start. */
  lemma OneAlertPerBump(e: Env, events: seq<Event>, i: nat, k: nat)
    requires ValidEnv(e) && i < k < |events|
    requires AlertsAt(e, events, i) && AlertsAt(e, events, k)
    ensures exists j :: i < j < k && (events[j] == Stopped || StartsAt(e, events, j))
  {
    assert events[..i + 1][..i] == events[..i];
    assert RunFrom(e, INITIAL, events[..i + 1]).alerted;
    if forall j :: i < j < k ==> events[j] != Stopped && !StartsAt(e, events, j) {
      AlertedStays(e, events, i + 1, k);
    }
  }
}
