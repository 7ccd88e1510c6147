/**
 Compensation driving a mount with play: with a fixed pulse equal to the backlash the output follows every sequence
 of requested moves exactly, and with any other pulse it does not.
 */
module BacklashTracking {
  import opened BacklashPlay
  import opened BacklashCompensation

  /** A guide request: its signed distance, which decides the direction, and the pulse length for it in ms. */
  datatype Request = Request(distance: real, ms: nat)

  ghost predicate Moves(rs: seq<Request>) {
    forall i :: 0 <= i < |rs| ==> rs[i].distance != 0.0
  }

  /** Down pulses move the Dec axis backward, up pulses forward. */
  function Sign(d: Direction): real {
    if d == Up then 1.0 else -1.0
  }

  /** What a request asks of the output: rate is the motion per millisecond of pulse. */
  function Wanted(r: Request, rate: real): real {
    Sign(DirectionOf(r.distance)) * (rate * (r.ms as real))
  }

  function WantedAll(rs: seq<Request>, rate: real): real {
    if rs == [] then 0.0 else WantedAll(rs[..|rs| - 1], rate) + Wanted(rs[|rs| - 1], rate)
  }

  datatype Axis = Axis(play: Play, last: Direction)

  /** One compensated request executed by the mount. */
  function Execute(a: Axis, r: Request, pulse: nat, rate: real): Axis {
    var (last, ms) := Applied(true, pulse, a.last, r.distance, r.ms);
    Axis(Advanced(a.play, Sign(DirectionOf(r.distance)) * (rate * (ms as real))), last)
  }

  function ExecuteAll(a: Axis, rs: seq<Request>, pulse: nat, rate: real): Axis {
    if rs == [] then a else Execute(ExecuteAll(a, rs[..|rs| - 1], pulse, rate), rs[|rs| - 1], pulse, rate)
  }

  /** The play is taken up in the direction of the last move. */
  ghost predicate Engaged(a: Axis) {
    && Inside(a.play)
    && match a.last
       case Up => a.play.cur == a.play.upper
       case Down => a.play.cur == a.play.upper - a.play.amount
       case NoDirection => false
  }

  lemma ExecuteExact(a: Axis, r: Request, pulse: nat, rate: real)
    requires Engaged(a) && r.distance != 0.0 && rate > 0.0
    requires rate * (pulse as real) == a.play.amount
    ensures var b := Execute(a, r, pulse, rate);
            && b.play.amount == a.play.amount
            && b.play.upper == a.play.upper + Wanted(r, rate)
            && Engaged(b)
  {
    var m := rate * (r.ms as real);
    assert m >= 0.0;
    assert rate * ((r.ms + pulse) as real) == m + a.play.amount by {
      Distribute(rate, r.ms as real, pulse as real);
      assert (r.ms + pulse) as real == r.ms as real + pulse as real;
    }
    if pulse == 0 {
      assert a.play.amount == 0.0;
    }
  }

  lemma Distribute(k: real, x: real, y: real)
    ensures k * (x + y) == k * x + k * y
  {
  }

  /** Exact tracking over every sequence of moves and reversals. */
  lemma {:induction false} TracksExactly(a: Axis, rs: seq<Request>, pulse: nat, rate: real)
    requires Engaged(a) && Moves(rs) && rate > 0.0
    requires rate * (pulse as real) == a.play.amount
    ensures var b := ExecuteAll(a, rs, pulse, rate);
            && Engaged(b) && b.play.amount == a.play.amount
            && b.play.upper == a.play.upper + WantedAll(rs, rate)
  {
    if rs == [] {
    } else {
      var n := |rs| - 1;
      TracksExactly(a, rs[..n], pulse, rate);
      ExecuteExact(ExecuteAll(a, rs[..n], pulse, rate), rs[n], pulse, rate);
    }
  }

  /** After a reversal long enough to take up the play, the output is off by the pulse less the backlash. */
  lemma ReversalError(a: Axis, r: Request, pulse: nat, rate: real)
    requires Engaged(a) && r.distance != 0.0 && DirectionOf(r.distance) != a.last && rate > 0.0
    requires rate * (r.ms as real) >= a.play.amount
    ensures var b := Execute(a, r, pulse, rate);
            b.play.upper == a.play.upper + Wanted(r, rate)
              + Sign(DirectionOf(r.distance)) * (rate * (pulse as real) - a.play.amount)
  {
    Distribute(rate, r.ms as real, pulse as real);
    assert (r.ms + pulse) as real == r.ms as real + pulse as real;
    assert rate * (pulse as real) >= 0.0;
  }

  lemma LongEnough(x: real, rate: real) returns (ms: nat)
    requires x >= 0.0 && rate > 0.0
    ensures rate * (ms as real) >= x
  {
    var q := x / rate;
    assert rate * q == x;
    assert q >= 0.0;
    ms := q.Floor + 1;
    assert ms as real >= q;
    MulOrder(q, ms as real, rate);
  }

  ghost predicate Follows(a: Axis, rs: seq<Request>, pulse: nat, rate: real) {
    ExecuteAll(a, rs, pulse, rate).play.upper == a.play.upper + WantedAll(rs, rate)
  }

  lemma SingleRequest(a: Axis, r: Request, pulse: nat, rate: real)
    ensures ExecuteAll(a, [r], pulse, rate) == Execute(a, r, pulse, rate)
    ensures WantedAll([r], rate) == Wanted(r, rate)
  {
    assert [r][..0] == [];
  }

  /** With any other pulse one reversal is enough to lose track. */
  lemma OtherPulseFails(a: Axis, pulse: nat, rate: real) returns (rs: seq<Request>)
    requires Engaged(a) && rate > 0.0 && rate * (pulse as real) != a.play.amount
    ensures Moves(rs) && !Follows(a, rs, pulse, rate)
  {
    var ms := LongEnough(a.play.amount, rate);
    var r := Request(if a.last == Up then 1.0 else -1.0, ms);
    ReversalError(a, r, pulse, rate);
    SingleRequest(a, r, pulse, rate);
    rs := [r];
  }

  /** The pulse that equals the backlash is the only one that follows every sequence of moves. */
  lemma OnlyExactPulseTracks(a: Axis, pulse: nat, rate: real)
    requires Engaged(a) && rate > 0.0
    ensures (forall rs :: Moves(rs) ==> Follows(a, rs, pulse, rate)) <==> rate * (pulse as real) == a.play.amount
  {
    if rate * (pulse as real) == a.play.amount {
      forall rs | Moves(rs) ensures Follows(a, rs, pulse, rate) {
        TracksExactly(a, rs, pulse, rate);
      }
    } else {
      var rs := OtherPulseFails(a, pulse, rate);
    }
  }
}
