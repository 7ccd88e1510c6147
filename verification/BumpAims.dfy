/**
 Where bumps take the unit, how large they are along each axis, and how average and weight follow the frames: stated by
 inner products and plain numbers, whatever vectors the controller computes on its way.
 */
module BumpAims {
  import opened Options
  import opened Reals
  import opened StepGuiding
  import opened AoBump
  import opened BumpLaws

  function Dot(a: Point, b: Point): real {
    Product(a.x, b.x) + Product(a.y, b.y)
  }

  /** Camera to mount coordinates: the transposed rotation, and the y axis reversed if the calibration says so. */
  function TurnedBack(e: Env, a: Point): Point {
    var y := Product(e.cos, a.y) - Product(e.sin, a.x);
    Point(Product(e.cos, a.x) + Product(e.sin, a.y), if e.mirrored then -y else y)
  }

  /** Turning back is the adjoint of turning. */
  lemma Adjoint(e: Env, a: Point, b: Point)
    ensures Dot(TurnedBack(e, b), a) == Dot(b, Turned(e, a))
  {
    var y := if e.mirrored then -a.y else a.y;
    AdjointReals(e.cos, e.sin, a.x, y, b.x, b.y);
    var u := Product(e.cos, b.y) - Product(e.sin, b.x);
    assert Product(-u, a.y) == Product(u, -a.y) by {
      NegatedFactor(u, a.y);
    }
  }

  lemma NegatedFactor(a: real, b: real)
    ensures Product(-a, b) == Product(a, -b) == -Product(a, b)
  {
  }

  lemma AdjointReals(c: real, s: real, x: real, y: real, p: real, q: real)
    ensures Product(Product(c, p) + Product(s, q), x) + Product(Product(c, q) - Product(s, p), y)
         == Product(p, Product(c, x) - Product(s, y)) + Product(q, Product(s, x) + Product(c, y))
  {
  }

  lemma StrictSign(v: real, pixels: real, len: real)
    requires pixels > 0.0 && len > 0.0 && v != 0.0
    ensures Product(Along(v, pixels, len), v) > 0.0
  {
    SquareSign(v);
    Positive(Square(v), pixels);
    AlongTimes(v, pixels, len);
    PositiveQuotient(Product(Square(v), pixels), len);
  }

  lemma AlongTimes(v: real, pixels: real, len: real)
    requires len != 0.0
    ensures Product(Along(v, pixels, len), v) == Product(Square(v), pixels) / len
  {
    var a := Product(v, pixels);
    assert a / len * v == a * v / len;
    assert a * v == Product(Square(v), pixels);
  }

  lemma PositiveQuotient(a: real, d: real)
    requires a > 0.0 && d > 0.0
    ensures a / d > 0.0
  {
  }

  /** Before it is cut, a gentle bump points home; it does so strictly unless it is nothing. */
  lemma RawAims(e: Env, v: Point, len: real, weight: real)
    requires ValidEnv(e) && len > 0.0 && weight >= 0.0
    ensures var b := Raw(e, v, len, weight);
            Dot(b, v) >= 0.0 && (weight > 0.0 && v != Point(0.0, 0.0) ==> Dot(b, v) > 0.0)
  {
    var px, py := Pixels(e.xRate, e.maxSteps, weight), Pixels(e.yRate, e.maxSteps, weight);
    PixelsBounded(e, e.xRate, weight);
    PixelsBounded(e, e.yRate, weight);
    SameSign(v.x, px, len);
    SameSign(v.y, py, len);
    if weight > 0.0 {
      Positive(e.xRate, e.maxSteps);
      Positive(e.yRate, e.maxSteps);
      Positive(Product(e.xRate, e.maxSteps), weight);
      Positive(Product(e.yRate, e.maxSteps), weight);
      if v.x != 0.0 {
        StrictSign(v.x, px, len);
      } else if v.y != 0.0 {
        StrictSign(v.y, py, len);
      }
    }
  }

  lemma ScaledDot(k: real, b: Point, v: Point)
    ensures Dot(Scale(k, b), v) == Product(k, Dot(b, v))
  {
  }

  lemma CutAims(sqrt: real -> real, b: Point, offset: Point, v: Point)
    requires IsSqrt(sqrt) && Dot(b, v) >= 0.0
    ensures Dot(Cut(sqrt, b, offset), v) >= 0.0
    ensures Sq(offset) > 0.0 && Dot(b, v) > 0.0 ==> Dot(Cut(sqrt, b, offset), v) > 0.0
  {
    SqNonneg(offset);
    if Sq(b) > Sq(offset) {
      var q := Sq(offset) / Sq(b);
      QuotientNonneg(Sq(offset), Sq(b));
      var k := sqrt(q);
      ScaledDot(k, b, v);
      Monotone(k, 0.0, Dot(b, v));
      Unit(k);
      if Sq(offset) > 0.0 && Dot(b, v) > 0.0 {
        PositiveQuotient(Sq(offset), Sq(b));
        RootPositive(sqrt, q);
        Positive(k, Dot(b, v));
      }
    }
  }

  lemma NotHome(e: Env, avg: Point)
    requires ValidEnv(e)
    ensures Homeward(e, avg) == Point(0.0, 0.0) <==> avg == Point(0.0, 0.0)
  {
    HomewardLength(e, avg);
    ZeroLength(Homeward(e, avg));
  }

  lemma AverageOpposes(e: Env, b: Point, avg: Point)
    ensures Dot(TurnedBack(e, b), Point(Product(e.xRate, avg.x), Product(e.yRate, avg.y))) == -Dot(b, Homeward(e, avg))
  {
    var w := Point(Product(e.xRate, -avg.x), Product(e.yRate, -avg.y));
    Adjoint(e, w, b);
    var t := TurnedBack(e, b);
    NegatedFactor(e.xRate, avg.x);
    NegatedFactor(e.yRate, avg.y);
    NegatedFactor(t.x, Product(e.xRate, avg.x));
    NegatedFactor(t.y, Product(e.yRate, avg.y));
  }

  /**
   A gentle bump takes the unit towards its centre: turned back into the coordinates of the unit it has no component
   along the average offset, and one against it whenever weight and star offset are not nothing.
   */
  lemma BumpTowardsCentre(e: Env, sqrt: real -> real, s: State, st: Step)
    requires ValidEnv(e) && IsSqrt(sqrt) && s.weight >= 0.0 && Averages(st) && s.avg.Some?
    requires !st.limited && Schedule(e, sqrt, s, st).Bump?
    ensures var b, avg := Schedule(e, sqrt, s, st).size, s.avg.value;
            var y := Product(e.cos, b.y) - Product(e.sin, b.x);
            var u := Point(Product(e.cos, b.x) + Product(e.sin, b.y), if e.mirrored then -y else y);
            var along := Product(u.x, Product(e.xRate, avg.x)) + Product(u.y, Product(e.yRate, avg.y));
            && along <= 0.0
            && (s.weight > 0.0 && st.offset != Point(0.0, 0.0) ==> along < 0.0)
  {
    var avg, weight, offset := s.avg.value, Used(e, s.weight, st.settling), st.offset;
    var v := Homeward(e, avg);
    SqNonneg(v);
    var len := sqrt(Sq(v));
    var raw := Raw(e, v, len, weight);
    assert Schedule(e, sqrt, s, st).size == Cut(sqrt, raw, offset);
    RawAims(e, v, len, weight);
    CutAims(sqrt, raw, offset, v);
    AverageOpposes(e, Cut(sqrt, raw, offset), avg);
    HomewardZero(e, sqrt, avg);
    NotHome(e, avg);
    ZeroLength(offset);
    SqNonneg(offset);
  }

  // ----- sizes

  lemma OnEllipse(v: Point, px: real, py: real, len: real)
    requires len != 0.0 && Square(len) == Sq(v)
    ensures var b := Point(Along(v.x, px, len), Along(v.y, py, len));
            Product(Square(b.x), Square(py)) + Product(Square(b.y), Square(px)) == Product(Square(px), Square(py))
  {
    var x, y := v.x / len, v.y / len;
    Normalised(v, len);
    AlongScaled(v.x, px, len);
    AlongScaled(v.y, py, len);
    SquareOfProduct(x, px);
    SquareOfProduct(y, py);
    EllipseSum(Square(x), Square(y), Square(px), Square(py));
  }

  lemma EllipseSum(a: real, b: real, p: real, q: real)
    requires a + b == 1.0
    ensures Product(Product(a, p), q) + Product(Product(b, q), p) == Product(p, q)
  {
    assert a * p * q + b * q * p == (a + b) * (p * q);
  }

  /**
   How large a gentle bump is: when it is no longer than the star offset, it reaches from the centre to the ellipse
   whose semi-axes are the steps of a cycle in pixels, xRate * maxSteps * weight and yRate * maxSteps * weight, the
   weight being raised to the boost while settling.
   */
  lemma BumpReachesEllipse(e: Env, sqrt: real -> real, s: State, st: Step)
    requires ValidEnv(e) && IsSqrt(sqrt) && s.weight >= 0.0 && Averages(st) && s.avg.Some?
    requires !st.limited && Schedule(e, sqrt, s, st).Bump?
    ensures var b, w := Schedule(e, sqrt, s, st).size, if st.settling then MaxReal(s.weight, e.boost) else s.weight;
            var px, py := Product(Product(e.xRate, e.maxSteps), w), Product(Product(e.yRate, e.maxSteps), w);
            || Sq(b) == Sq(st.offset)
            || Product(Square(b.x), Square(py)) + Product(Square(b.y), Square(px)) == Product(Square(px), Square(py))
  {
    var avg, weight := s.avg.value, Used(e, s.weight, st.settling);
    var v := Homeward(e, avg);
    SqNonneg(v);
    var len := sqrt(Sq(v));
    OnEllipse(v, Pixels(e.xRate, e.maxSteps, weight), Pixels(e.yRate, e.maxSteps, weight), len);
    var raw := Raw(e, v, len, weight);
    CutLength(sqrt, raw, st.offset);
  }

  /** b is k times the offset: seven tenths unless that is longer than half, and else of length half. */
  ghost predicate PartOf(k: real, b: Point, o: Point, half: real) {
    && 0.0 <= k <= 0.70 && b == Point(Product(o.x, k), Product(o.y, k))
    && (k == 0.70 <==> Product(0.49, Sq(o)) <= Square(half))
    && (k < 0.70 ==> Sq(b) == Square(half))
  }

  lemma CutToHalf(r: real, h: real, o: Point)
    requires r > 0.0 && h >= 0.0 && Square(r) == Product(0.49, Sq(o)) && Square(r) > Square(h)
    ensures PartOf(Product(0.70, h / r), Scale(h / r, Scale(0.70, o)), o, h)
  {
    var f := h / r;
    ShrinkFactor(h, r);
    Associates(o.x, 0.70, f);
    Associates(o.y, 0.70, f);
    ScaledLength(0.70, o);
    ScaledLength(f, Scale(0.70, o));
    SquareOfProduct(f, r);
    Quotient(h, r);
    SevenTenths();
  }

  lemma SevenTenths()
    ensures Square(0.70) == 0.49
  {
  }

  lemma LargePart(e: Env, sqrt: real -> real, o: Point) returns (k: real)
    requires ValidEnv(e) && IsSqrt(sqrt)
    ensures PartOf(k, Large(e, sqrt, o), o, HalfMove(e))
  {
    var b := Scale(0.70, o);
    ScaledLength(0.70, o);
    SevenTenths();
    if Sq(b) > Square(HalfMove(e)) {
      SquareSign(HalfMove(e));
      RootPositive(sqrt, Sq(b));
      CutToHalf(sqrt(Sq(b)), HalfMove(e), o);
      k := Product(0.70, HalfMove(e) / sqrt(Sq(b)));
    } else {
      k := 0.70;
    }
  }

  /** A large bump goes along the star offset, seven tenths of it, or less if that is half of the search region. */
  lemma LargeBumpAims(e: Env, sqrt: real -> real, s: State, st: Step) returns (k: real)
    requires ValidEnv(e) && IsSqrt(sqrt) && Averages(st) && s.avg.Some? && s.active && !Busy(st) && st.limited
    ensures var r := Schedule(e, sqrt, s, st); r.Bump? && PartOf(k, r.size, st.offset, e.maxMove as real / 2.0)
  {
    hide PartOf, Large;
    k := LargePart(e, sqrt, st.offset);
    assert HalfMove(e) == e.maxMove as real / 2.0;
  }

  lemma ShrinkFactor(h: real, r: real)
    requires h >= 0.0 && r > 0.0 && Square(r) > Square(h)
    ensures 0.0 <= h / r < 1.0
  {
    SquareMonotone(r, h);
    Quotient(h, r);
    if h / r >= 1.0 {
      Monotone(r, 1.0, h / r);
      Commutes(r, h / r);
      Unit(r);
    }
    if h / r < 0.0 {
      StrictlyMonotone(r, h / r, 0.0);
      Commutes(r, h / r);
      Unit(r);
    }
  }

  // ----- how the average follows the unit

  /** Moves that the average takes into account, all of them ending at p. */
  ghost predicate AllAveragedAt(events: seq<Event>, p: Position) {
    forall i :: 0 <= i < |events| ==> events[i].Move? && Averages(events[i].step) && events[i].step.pos == p
  }

  /** What is left of a distance after n moves. */
  function Left(n: nat): real {
    if n == 0 then 1.0 else Product(Left(n - 1), 0.67)
  }

  lemma StepCloser(a: real, p: real, left: real, from: real)
    requires a - p == Product(left, from)
    ensures a + 0.33 * (p - a) - p == Product(Product(left, 0.67), from)
  {
    Commutes(left, 0.67);
    Associates(0.67, left, from);
  }

  lemma AverageAfter(e: Env, s: State, st: Step)
    requires ValidEnv(e) && Averages(st)
    ensures After(e, s, st).avg == Some(Averaged(s.avg, st.pos))
  {
  }

  /** While the unit stays at a place the average, which starts there if there is none, goes straight towards it. */
  lemma {:induction false} AverageFollows(e: Env, s: State, events: seq<Event>, p: Position)
    requires ValidEnv(e) && AllAveragedAt(events, p) && events != []
    ensures var t := RunFrom(e, s, events);
            t.avg.Some? &&
            if s.avg.None? then t.avg.value == Point(p.x as real, p.y as real)
            else
              && t.avg.value.x - p.x as real == Product(Left(|events|), s.avg.value.x - p.x as real)
              && t.avg.value.y - p.y as real == Product(Left(|events|), s.avg.value.y - p.y as real)
  {
    hide After;
    var n := |events| - 1;
    var before := RunFrom(e, s, events[..n]);
    AverageAfter(e, before, events[n].step);
    if n == 0 {
      if s.avg.Some? {
        Unit(s.avg.value.x - p.x as real);
        Unit(s.avg.value.y - p.y as real);
      }
    } else {
      AverageFollows(e, s, events[..n], p);
    }
    if s.avg.Some? {
      StepCloser(before.avg.value.x, p.x as real, Left(n), s.avg.value.x - p.x as real);
      StepCloser(before.avg.value.y, p.y as real, Left(n), s.avg.value.y - p.y as real);
    }
  }

  /** Stopping, resuming and dithering forget the average; stopping also ends the bump, its weight and any request. */
  lemma InterruptionsForget(e: Env, s: State, events: seq<Event>, ev: Event)
    requires ValidEnv(e) && (ev == Stopped || ev == Resumed || ev == Dithered)
    ensures var before, after := RunFrom(e, s, events), RunFrom(e, s, events + [ev]);
            && after.avg == None && after.since == before.since
            && (ev == Stopped ==> !after.forced && !after.active && after.weight == 1.0 && !after.alerted)
            && (ev != Stopped ==> after == before.(avg := None))
  {
    assert (events + [ev])[..|events|] == events;
  }

  // ----- how the weight adapts

  /** Normal moves that find the unit outside the bump range, or far outside it, and the secondary mount free. */
  ghost predicate AllOutside(e: Env, events: seq<Event>, far: bool)
    requires ValidEnv(e)
  {
    forall i :: 0 <= i < |events| ==>
      && Reconsiders(events[i]) && !Busy(events[i].step) && Outside(e, events[i].step.pos)
      && (FarOutside(e, events[i].step.pos) <==> far)
  }

  /** While a bump has not brought the unit back its weight grows by 1 a move far out and by 1/6 else, up to the cap. */
  lemma {:induction false} WeightGrows(e: Env, s: State, events: seq<Event>, far: bool)
    requires ValidEnv(e) && AllOutside(e, events, far) && s.active && !s.forced && s.weight <= Cap(e)
    ensures var t := RunFrom(e, s, events);
            && t.active && !t.forced
            && t.weight == MinReal(Cap(e), s.weight + (|events| as real) * if far then 1.0 else 1.0 / 6.0)
  {
    if events == [] {
    } else {
      var n := |events| - 1;
      WeightGrows(e, s, events[..n], far);
      assert Reconsiders(events[n]);
    }
  }

  ghost predicate AllInside(e: Env, events: seq<Event>)
    requires ValidEnv(e)
  {
    forall i :: 0 <= i < |events| ==> Reconsiders(events[i]) && !Outside(e, events[i].step.pos)
  }

  function Halved(w: real, n: nat): real {
    if n == 0 then w else Halved(w, n - 1) * 0.5
  }

  /** Back inside a weight above 1 is halved on every move until it is 1, and a lower one stays. */
  lemma {:induction false} WeightHalves(e: Env, s: State, events: seq<Event>)
    requires ValidEnv(e) && AllInside(e, events)
    ensures RunFrom(e, s, events).weight
         == if s.weight > 1.0 then MaxReal(1.0, Halved(s.weight, |events|)) else s.weight
  {
    if events == [] {
    } else {
      var n := |events| - 1;
      WeightHalves(e, s, events[..n]);
      assert Reconsiders(events[n]);
    }
  }

  // ----- the ranges in numbers

  /** A bump ends within a fifth of the travel upwards, and half of the search region is half of it. */
  lemma TolerancesInNumbers(e: Env, avg: Point)
    requires ValidEnv(e)
    ensures Tolerance(e) == e.limits.up / 5 && HalfMove(e) == e.maxMove as real / 2.0
    ensures NearCentre(e, avg) <==> Sq(avg) <= ((e.limits.up / 5) * (e.limits.up / 5)) as real
  {
    assert 10 * (2 * e.limits.up) / 100 == e.limits.up / 5;
  }

  lemma PercentExceeded(a: int, q: int)
    requires q >= 0
    ensures a > q / 100 <==> 100 * a > q
  {
  }

  /** A bump is due beyond the given part of the travel to the left and up, and far beyond it halfway to the limits. */
  lemma RangesInPercent(e: Env, p: Position)
    requires ValidEnv(e)
    ensures Outside(e, p) <==>
              100 * AbsInt(p.x) > e.percent * e.limits.left || 100 * AbsInt(p.y) > e.percent * e.limits.up
    ensures FarOutside(e, p) <==>
              || 100 * AbsInt(p.x) > ((100 + e.percent) / 2) * e.limits.left
              || 100 * AbsInt(p.y) > ((100 + e.percent) / 2) * e.limits.up
  {
    PercentExceeded(AbsInt(p.x), e.percent * e.limits.left);
    PercentExceeded(AbsInt(p.y), e.percent * e.limits.up);
    PercentExceeded(AbsInt(p.x), ((100 + e.percent) / 2) * e.limits.left);
    PercentExceeded(AbsInt(p.y), ((100 + e.percent) / 2) * e.limits.up);
  }

  // ----- when bumps and warnings come

  /** A bump is scheduled on every averaged move while one is in progress and the secondary mount is free. */
  lemma BumpsWhenInProgress(e: Env, sqrt: real -> real, s: State, st: Step)
    requires ValidEnv(e) && IsSqrt(sqrt) && (st.enabled && !st.deduced ==> s.avg.Some?)
    ensures Schedule(e, sqrt, s, st) == NoBump <==> !st.enabled || st.deduced || !s.active || (st.secondary && st.busy)
  {
  }

  /** The bump in progress after these events began with event j. */
  ghost predicate BegunAt(e: Env, events: seq<Event>, j: nat)
    requires ValidEnv(e)
  {
    && j < |events| && Reconsiders(events[j]) && !RunFrom(e, INITIAL, events[..j]).active
    && forall i :: j < i <= |events| ==> RunFrom(e, INITIAL, events[..i]).active
  }

  lemma BegunGrows(e: Env, events: seq<Event>, j: nat)
    requires ValidEnv(e) && events != [] && RunFrom(e, INITIAL, events).active
    requires BegunAt(e, events[..|events| - 1], j)
    ensures BegunAt(e, events, j)
  {
    var before := events[..|events| - 1];
    assert before[..j] == events[..j];
    forall i | j < i <= |events| ensures RunFrom(e, INITIAL, events[..i]).active {
      if i < |events| {
        assert before[..i] == events[..i];
      } else {
        assert events[..i] == events;
      }
    }
  }

  /** The clock of a bump in progress was read when it began. */
  lemma {:induction false} ActiveSince(e: Env, events: seq<Event>) returns (j: nat)
    requires ValidEnv(e) && RunFrom(e, INITIAL, events).active
    ensures BegunAt(e, events, j) && RunFrom(e, INITIAL, events).since == events[j].step.now
  {
    if events == [] {
      assert false;
    } else {
      var n := |events| - 1;
      var before := RunFrom(e, INITIAL, events[..n]);
      if before.active {
        j := ActiveSince(e, events[..n]);
        BegunGrows(e, events, j);
      } else {
        j := n;
        assert events[..n + 1] == events;
        assert Reconsiders(events[n]);
      }
    }
  }

  /** A warning is given only for a bump that has been in progress for more than 240 seconds since it began. */
  lemma WarningIsLate(e: Env, events: seq<Event>, k: nat)
    requires ValidEnv(e) && k < |events| && AlertsAt(e, events, k)
    ensures exists j: nat :: BegunAt(e, events[..k], j) && events[k].step.now - events[j].step.now > 240
  {
    var j := ActiveSince(e, events[..k]);
    assert events[..k][j] == events[j];
  }

  /** And it is given on the first normal move that late. */
  lemma WarningIsGiven(e: Env, events: seq<Event>, k: nat, j: nat)
    requires ValidEnv(e) && k < |events| && Reconsiders(events[k]) && BegunAt(e, events[..k], j)
    requires events[k].step.now - events[j].step.now > 240
    ensures AlertsAt(e, events, k) || RunFrom(e, INITIAL, events[..k]).alerted
  {
    assert events[..k][..k] == events[..k];
    var i := ActiveSince(e, events[..k]);
    OneBeginning(e, events[..k], i, j);
  }

  lemma OneBeginning(e: Env, events: seq<Event>, i: nat, j: nat)
    requires ValidEnv(e) && BegunAt(e, events, i) && BegunAt(e, events, j)
    ensures i == j
  {
  }
}
