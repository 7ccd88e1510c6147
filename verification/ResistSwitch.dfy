/**
 The resist-switch guide algorithm: ten samples vote on whether to change the guiding direction, and one large
 excursion can force the change by rewriting them.
 */
module ResistSwitch {
  import opened Reals

  const HISTORY_SIZE := 10
  const DEFAULT_MIN_MOVE := 0.2
  const DEFAULT_AGGRESSION := 1.0

  datatype Config = Config(minMove: real, aggression: real, fastSwitch: bool)
  datatype State = State(history: seq<real>, side: int)

  ghost predicate ValidState(s: State) {
    |s.history| == HISTORY_SIZE && -1 <= s.side <= 1
  }

  function Sign(x: real): int {
    if x > 0.0 then 1 else if x < 0.0 then -1 else 0
  }

  function SignInt(x: int): int {
    if x > 0 then 1 else if x < 0 then -1 else 0
  }

  function Vote(x: real, minMove: real): int {
    if Abs(x) > minMove then Sign(x) else 0
  }

  function Votes(h: seq<real>, minMove: real): int {
    if h == [] then 0 else Votes(h[..|h| - 1], minMove) + Vote(h[|h| - 1], minMove)
  }

  function Oldest(h: seq<real>): real
    requires |h| == HISTORY_SIZE
  {
    h[0] + h[1] + h[2]
  }

  function Newest(h: seq<real>): real
    requires |h| == HISTORY_SIZE
  {
    h[9] + h[8] + h[7]
  }

  /** A single sample far beyond the minimum move, not on the current side. */
  predicate Excursion(g: Config, side: int, input: real) {
    g.fastSwitch && Sign(input) != side && Abs(input) > 3.0 * g.minMove
  }

  function Rewritten(input: real): (h: seq<real>)
    ensures |h| == HISTORY_SIZE
  {
    seq(HISTORY_SIZE, i => if i < HISTORY_SIZE - 3 then 0.0 else input)
  }

  /** The state before the vote: the new sample is in, and an excursion has cleared the side. */
  function Admitted(g: Config, s: State, input: real): (t: State)
    requires ValidState(s)
    ensures ValidState(t)
  {
    if Abs(input) >= g.minMove && Excursion(g, s.side, input) then State(Rewritten(input), 0)
    else State(s.history[1..] + [input], s.side)
  }

  /** The history speaks against the current side. */
  predicate Contested(g: Config, t: State) {
    t.side == 0 || t.side == -SignInt(Votes(t.history, g.minMove))
  }

  /** The vote is clear, and the recent samples are worse than the oldest ones. */
  predicate Compelling(g: Config, t: State)
    requires |t.history| == HISTORY_SIZE
  {
    AbsInt(Votes(t.history, g.minMove)) >= 3 && Abs(Newest(t.history)) > Abs(Oldest(t.history))
  }

  function Move(input: real, aggression: real): real {
    input * aggression
  }

  function Step(g: Config, s: State, input: real): (r: (State, real))
    requires ValidState(s)
    ensures ValidState(r.0)
  {
    var t := Admitted(g, s, input);
    if Abs(input) < g.minMove then (t, 0.0)
    else if Contested(g, t) && !Compelling(g, t) then (t, 0.0)
    else
      var side := if Contested(g, t) then SignInt(Votes(t.history, g.minMove)) else t.side;
      (t.(side := side), if side == Sign(input) then Move(input, g.aggression) else 0.0)
  }

  function Run(g: Config, s: State, inputs: seq<real>): (r: (State, seq<real>))
    requires ValidState(s)
    ensures ValidState(r.0) && |r.1| == |inputs|
  {
    if inputs == [] then (s, [])
    else
      var n := |inputs| - 1;
      var before := Run(g, s, inputs[..n]);
      var last := Step(g, before.0, inputs[n]);
      (last.0, before.1 + [last.1])
  }

  function Fresh(): (s: State)
    ensures ValidState(s)
  {
    State(seq(HISTORY_SIZE, _ => 0.0), 0)
  }

  // ----- what a step can do

  /** A move is the input times the aggression, beyond the minimum move and on the side decided for. */
  lemma MovesOnCurrentSide(g: Config, s: State, input: real)
    requires ValidState(s)
    ensures var (t, move) := Step(g, s, input);
            move != 0.0 ==> move == Move(input, g.aggression) && t.side == Sign(input) && Abs(input) >= g.minMove
  {
  }

  lemma {:induction false} QuietVotes(h: seq<real>, minMove: real)
    requires minMove > 0.0 && forall i :: 0 <= i < |h| ==> h[i] == 0.0
    ensures Votes(h, minMove) == 0
  {
    if h == [] {
    } else {
      QuietVotes(h[..|h| - 1], minMove);
    }
  }

  lemma RewrittenVotes(input: real, minMove: real)
    requires minMove > 0.0 && Abs(input) > minMove
    ensures Votes(Rewritten(input), minMove) == 3 * Sign(input)
  {
    var h := Rewritten(input);
    QuietVotes(h[..7], minMove);
    assert h[..10] == h && h[..9][..8] == h[..8] && h[..8][..7] == h[..7] && h[..10][..9] == h[..9];
    assert Votes(h[..8], minMove) == Votes(h[..7], minMove) + Vote(h[7], minMove);
    assert Votes(h[..9], minMove) == Votes(h[..8], minMove) + Vote(h[8], minMove);
  }

  /** An excursion moves on that very frame, to its own side. */
  lemma ExcursionMovesAtOnce(g: Config, s: State, input: real)
    requires ValidState(s) && g.minMove > 0.0 && Excursion(g, s.side, input)
    ensures Step(g, s, input) == (State(Rewritten(input), Sign(input)), Move(input, g.aggression))
  {
    RewrittenVotes(input, g.minMove);
    var h := Rewritten(input);
    assert Admitted(g, s, input) == State(h, 0);
    assert Oldest(h) == 0.0 && Newest(h) == 3.0 * input;
    assert Compelling(g, State(h, 0));
  }

  /** The side changes only by an excursion, or when a clear vote and worsening samples speak for the new one. */
  lemma SwitchNeedsEvidence(g: Config, s: State, input: real)
    requires ValidState(s) && g.minMove > 0.0
    ensures var t := Step(g, s, input).0;
            t.side != s.side ==>
              Excursion(g, s.side, input)
              || (t.history == s.history[1..] + [input] && t.side == SignInt(Votes(t.history, g.minMove))
                  && AbsInt(Votes(t.history, g.minMove)) >= 3
                  && Abs(Newest(t.history)) > Abs(Oldest(t.history)))
  {
  }

  // ----- when it moves and when it is silent

  /** How many samples are beyond the minimum move on the positive side, and on the negative one. */
  ghost function Positives(h: seq<real>, minMove: real): nat {
    |set i | 0 <= i < |h| && h[i] > minMove|
  }

  ghost function Negatives(h: seq<real>, minMove: real): nat {
    |set i | 0 <= i < |h| && h[i] < -minMove|
  }

  lemma PositivesSnoc(t: seq<real>, x: real, minMove: real)
    ensures Positives(t + [x], minMove) == Positives(t, minMove) + if x > minMove then 1 else 0
  {
    var h, n := t + [x], |t|;
    assert (set i | 0 <= i < |h| && h[i] > minMove)
        == (set i | 0 <= i < |t| && t[i] > minMove) + if x > minMove then {n} else {};
  }

  lemma NegativesSnoc(t: seq<real>, x: real, minMove: real)
    ensures Negatives(t + [x], minMove) == Negatives(t, minMove) + if x < -minMove then 1 else 0
  {
    var h, n := t + [x], |t|;
    assert (set i | 0 <= i < |h| && h[i] < -minMove)
        == (set i | 0 <= i < |t| && t[i] < -minMove) + if x < -minMove then {n} else {};
  }

  /** The vote is the one count less the other. */
  lemma {:induction false} VotesCount(h: seq<real>, minMove: real)
    requires minMove > 0.0
    ensures Votes(h, minMove) == Positives(h, minMove) - Negatives(h, minMove)
  {
    if h == [] {
    } else {
      hide Positives, Negatives;
      var n := |h| - 1;
      VotesCount(h[..n], minMove);
      assert h == h[..n] + [h[n]];
      PositivesSnoc(h[..n], h[n], minMove);
      NegativesSnoc(h[..n], h[n], minMove);
    }
  }

  /**
   When a move comes, in terms of samples and counts. Too small an input is only remembered. A sample far out against
   the side moves at once. A side that is not outvoted stands and corrects inputs on its own side in full proportion.
   Else the side goes to a majority of at least three whose newest samples outweigh the oldest, and stays as it is
   without one.
   */
  lemma WhenItMoves(g: Config, s: State, input: real)
    requires ValidState(s) && g.minMove > 0.0
    ensures var (t, move) := Step(g, s, input);
            var h := s.history[1..] + [input];
            var pos, neg := Positives(h, g.minMove), Negatives(h, g.minMove);
            var worse := Abs(h[7] + h[8] + h[9]) > Abs(h[0] + h[1] + h[2]);
            var full := input * g.aggression;
            if Abs(input) < g.minMove then t == State(h, s.side) && move == 0.0
            else if g.fastSwitch && Abs(input) > 3.0 * g.minMove && !(if input > 0.0 then s.side == 1 else s.side == -1)
            then t == State(Rewritten(input), if input > 0.0 then 1 else -1) && move == full
            else
              && t.history == h
              && t.side == (if (s.side == 1 && pos >= neg) || (s.side == -1 && neg >= pos) then s.side
                            else if worse && pos >= neg + 3 then 1
                            else if worse && neg >= pos + 3 then -1
                            else s.side)
              && move == (if ((s.side == 1 && pos >= neg) || (s.side == -1 && neg >= pos)
                              || (worse && (pos >= neg + 3 || neg >= pos + 3)))
                             && (if input > 0.0 then t.side == 1 else t.side == -1)
                          then full else 0.0)
  {
    hide Votes, Rewritten, Positives, Negatives;
    var h := s.history[1..] + [input];
    VotesCount(h, g.minMove);
    if Excursion(g, s.side, input) && Abs(input) >= g.minMove {
      ExcursionMovesAtOnce(g, s, input);
    } else {
      assert Admitted(g, s, input) == State(h, s.side);
      assert Oldest(h) == h[0] + h[1] + h[2] && Newest(h) == h[7] + h[8] + h[9];
    }
  }

  // ----- a steady drift

  lemma RunSnoc(g: Config, s: State, inputs: seq<real>)
    requires ValidState(s) && inputs != []
    ensures var (before, moves) := Run(g, s, inputs[..|inputs| - 1]);
            var (t, move) := Step(g, before, inputs[|inputs| - 1]);
            Run(g, s, inputs) == (t, moves + [move])
  {
  }

  /** The last k of the ten samples are x and the others are none. */
  function Drift(x: real, k: nat): (h: seq<real>)
    requires k <= HISTORY_SIZE
    ensures |h| == HISTORY_SIZE
  {
    seq(HISTORY_SIZE - k, _ => 0.0) + seq(k, _ => x)
  }

  lemma {:induction false} SteadyVotes(x: real, k: nat, minMove: real)
    requires minMove > 0.0 && Abs(x) > minMove
    ensures Votes(seq(k, _ => x), minMove) == k * Sign(x)
  {
    if k == 0 {
    } else {
      SteadyVotes(x, k - 1, minMove);
      assert seq(k, _ => x)[..k - 1] == seq(k - 1, _ => x);
    }
  }

  lemma {:induction false} VotesAppend(a: seq<real>, b: seq<real>, minMove: real)
    ensures Votes(a + b, minMove) == Votes(a, minMove) + Votes(b, minMove)
  {
    if b == [] {
      assert a + b == a;
    } else {
      VotesAppend(a, b[..|b| - 1], minMove);
      assert (a + b)[..|a + b| - 1] == a + b[..|b| - 1];
    }
  }

  lemma DriftVotes(x: real, k: nat, minMove: real)
    requires k <= HISTORY_SIZE && minMove > 0.0 && Abs(x) > minMove
    ensures Votes(Drift(x, k), minMove) == k * Sign(x)
  {
    VotesAppend(seq(HISTORY_SIZE - k, _ => 0.0), seq(k, _ => x), minMove);
    QuietVotes(seq(HISTORY_SIZE - k, _ => 0.0), minMove);
    SteadyVotes(x, k, minMove);
  }

  /** One more sample of a drift, of which the last k of the ten samples are. */
  lemma DriftStep(g: Config, x: real, k: nat, side: int)
    requires k <= HISTORY_SIZE && g.minMove > 0.0 && Abs(x) > g.minMove && side == (if k < 3 then 0 else Sign(x))
    requires k < 3 ==> !Excursion(g, 0, x)
    ensures Step(g, State(Drift(x, k), side), x)
         == (State(Drift(x, Capped(k + 1)), if k < 2 then 0 else Sign(x)), if k < 2 then 0.0 else x * g.aggression)
  {
    hide Votes, Drift;
    var h := Drift(x, Capped(k + 1));
    DriftShift(x, k);
    DriftVotes(x, Capped(k + 1), g.minMove);
    var t := State(h, side);
    assert Admitted(g, State(Drift(x, k), side), x) == t;
    if k < 2 {
      assert AbsInt(Votes(h, g.minMove)) == k + 1;
      assert Contested(g, t) && !Compelling(g, t);
    } else if k == 2 {
      DriftEnds(x);
      assert Compelling(g, t) && Contested(g, t);
      assert SignInt(Votes(h, g.minMove)) == Sign(x);
      assert t.(side := Sign(x)) == State(h, Sign(x));
    } else {
      assert !Contested(g, t);
    }
    var r := Step(g, State(Drift(x, k), side), x);
    assert r.0 == State(h, if k < 2 then 0 else Sign(x));
    assert r.1 == if k < 2 then 0.0 else x * g.aggression;
  }

  function Capped(k: nat): (c: nat)
    ensures c <= HISTORY_SIZE
  {
    if k < HISTORY_SIZE then k else HISTORY_SIZE
  }

  lemma DriftShift(x: real, k: nat)
    requires k <= HISTORY_SIZE
    ensures Drift(x, k)[1..] + [x] == Drift(x, Capped(k + 1))
  {
  }

  lemma DriftEnds(x: real)
    ensures Oldest(Drift(x, 3)) == 0.0 && Newest(Drift(x, 3)) == x + x + x
  {
  }

  /** The moves of n frames, of which the first quiet ones are none. */
  function Moving(full: real, quiet: nat, n: nat): (moves: seq<real>)
    ensures |moves| == n
  {
    seq(n, i => if i < quiet then 0.0 else full)
  }

  lemma MovingSnoc(full: real, quiet: nat, n: nat)
    ensures Moving(full, quiet, 0) == []
    ensures Moving(full, quiet, n + 1) == Moving(full, quiet, n) + [if n < quiet then 0.0 else full]
  {
  }

  lemma NotFar(g: Config, x: real, k: nat)
    requires k >= 3 || !(g.fastSwitch && Abs(x) > 3.0 * g.minMove)
    ensures k < 3 ==> !Excursion(g, 0, x)
  {
  }

  lemma FirstFar(g: Config, x: real)
    requires g.minMove > 0.0 && g.fastSwitch && Abs(x) > 3.0 * g.minMove
    ensures Step(g, State(Drift(x, 0), 0), x) == (State(Drift(x, 3), Sign(x)), x * g.aggression)
  {
    var s := State(Drift(x, 0), 0);
    ExcursionMovesAtOnce(g, s, x);
    assert Rewritten(x) == Drift(x, 3);
    assert Step(g, s, x).0 == State(Drift(x, 3), Sign(x));
    assert Step(g, s, x).1 == x * g.aggression;
  }

  function Steady(x: real, n: nat): (inputs: seq<real>)
    ensures |inputs| == n
  {
    seq(n, _ => x)
  }

  lemma RunStep(g: Config, inputs: seq<real>, x: real, before: State, moves: seq<real>, t: State, move: real)
    requires ValidState(before) && Run(g, Fresh(), inputs) == (before, moves) && Step(g, before, x) == (t, move)
    ensures Run(g, Fresh(), inputs + [x]) == (t, moves + [move])
  {
    hide Step;
    assert (inputs + [x])[..|inputs|] == inputs;
    RunSnoc(g, Fresh(), inputs + [x]);
  }

  lemma SteadySnoc(x: real, n: nat)
    ensures Steady(x, 0) == [] && Steady(x, n + 1) == Steady(x, n) + [x]
  {
  }

  lemma NothingRun(g: Config, x: real)
    ensures Run(g, Fresh(), []) == (State(Drift(x, 0), 0), [])
  {
    assert Drift(x, 0) == Fresh().history;
  }

  /** From the start, a steady drift beyond the minimum move is corrected in full proportion from the third frame on. */
  lemma {:induction false} DriftCorrected(g: Config, x: real, full: real, n: nat)
    requires g.minMove > 0.0 && Abs(x) > g.minMove && !(g.fastSwitch && Abs(x) > 3.0 * g.minMove)
    requires full == x * g.aggression
    ensures Run(g, Fresh(), Steady(x, n))
         == (State(Drift(x, Capped(n)), if n < 3 then 0 else Sign(x)), Moving(full, 2, n))
  {
    hide Step, Drift, Votes, Moving, Run, Steady, Sign;
    if n == 0 {
      NothingRun(g, x);
      MovingSnoc(full, 2, 0);
      SteadySnoc(x, 0);
    } else {
      var k := n - 1;
      var side := if k < 3 then 0 else Sign(x);
      DriftCorrected(g, x, full, k);
      SteadySnoc(x, k);
      MovingSnoc(full, 2, k);
      NotFar(g, x, Capped(k));
      DriftStep(g, x, Capped(k), side);
      RunStep(g, Steady(x, k), x, State(Drift(x, Capped(k)), side), Moving(full, 2, k),
              State(Drift(x, Capped(n)), if n < 3 then 0 else Sign(x)), if k < 2 then 0.0 else full);
    }
  }

  /** A drift far enough out for a fast switch is so from the first frame on. */
  lemma {:induction false} FarDriftCorrected(g: Config, x: real, full: real, n: nat)
    requires g.minMove > 0.0 && g.fastSwitch && Abs(x) > 3.0 * g.minMove && n >= 1
    requires full == x * g.aggression
    ensures Run(g, Fresh(), Steady(x, n)) == (State(Drift(x, Capped(n + 2)), Sign(x)), Moving(full, 0, n))
  {
    hide Step, Drift, Votes, Moving, Run, Steady, Sign;
    var k := n - 1;
    SteadySnoc(x, k);
    MovingSnoc(full, 0, k);
    if k == 0 {
      NothingRun(g, x);
      FirstFar(g, x);
      RunStep(g, Steady(x, 0), x, State(Drift(x, 0), 0), [], State(Drift(x, 3), Sign(x)), full);
    } else {
      FarDriftCorrected(g, x, full, k);
      DriftStep(g, x, Capped(k + 2), Sign(x));
      RunStep(g, Steady(x, k), x, State(Drift(x, Capped(k + 2)), Sign(x)), Moving(full, 0, k),
              State(Drift(x, Capped(n + 2)), Sign(x)), full);
    }
  }

  /** Below the minimum move nothing is ever corrected, whatever came before. */
  lemma {:induction false} SmallNeverMoves(g: Config, s: State, inputs: seq<real>)
    requires ValidState(s) && forall i :: 0 <= i < |inputs| ==> Abs(inputs[i]) < g.minMove
    ensures var (t, moves) := Run(g, s, inputs);
            t.side == s.side && forall i :: 0 <= i < |moves| ==> moves[i] == 0.0
  {
    if inputs == [] {
    } else {
      SmallNeverMoves(g, s, inputs[..|inputs| - 1]);
    }
  }

  // ----- symmetry

  function Negated(h: seq<real>): (r: seq<real>)
    ensures |r| == |h|
  {
    seq(|h|, i requires 0 <= i < |h| => -h[i])
  }

  function Opposite(s: State): State {
    State(Negated(s.history), -s.side)
  }

  lemma {:induction false} VotesNegated(h: seq<real>, minMove: real)
    ensures Votes(Negated(h), minMove) == -Votes(h, minMove)
  {
    if h == [] {
    } else {
      VotesNegated(h[..|h| - 1], minMove);
      assert Negated(h)[..|h| - 1] == Negated(h[..|h| - 1]);
    }
  }

  lemma AdmittedNegated(g: Config, s: State, input: real)
    requires ValidState(s)
    ensures Admitted(g, Opposite(s), -input) == Opposite(Admitted(g, s, input))
  {
    var t, u := Admitted(g, s, input), Admitted(g, Opposite(s), -input);
    assert forall i :: 0 <= i < HISTORY_SIZE ==> u.history[i] == Opposite(t).history[i];
  }

  lemma MoveNegated(input: real, aggression: real)
    ensures Move(-input, aggression) == -Move(input, aggression)
  {
  }

  lemma NegatedSnoc(h: seq<real>, x: real)
    ensures Negated(h + [x]) == Negated(h) + [-x]
  {
  }

  lemma StepNegated(g: Config, s: State, input: real)
    requires ValidState(s)
    ensures var (t, move) := Step(g, s, input);
            Step(g, Opposite(s), -input) == (Opposite(t), -move)
  {
    AdmittedNegated(g, s, input);
    VotesNegated(Admitted(g, s, input).history, g.minMove);
    MoveNegated(input, g.aggression);
  }

  /** Mirrored inputs give mirrored moves, over every run. */
  lemma {:induction false} RunNegated(g: Config, s: State, inputs: seq<real>)
    requires ValidState(s)
    ensures var (t, moves) := Run(g, s, inputs);
            Run(g, Opposite(s), Negated(inputs)) == (Opposite(t), Negated(moves))
  {
    hide Step, Admitted, Votes;
    if inputs == [] {
    } else {
      var n := |inputs| - 1;
      RunNegated(g, s, inputs[..n]);
      var (before, moves) := Run(g, s, inputs[..n]);
      RunSnoc(g, s, inputs);
      StepNegated(g, before, inputs[n]);
      NegatedSnoc(moves, Step(g, before, inputs[n]).1);
      assert Negated(inputs)[..n] == Negated(inputs[..n]);
      RunSnoc(g, Opposite(s), Negated(inputs));
    }
  }

  // ----- scale

  function Scaled(x: real, k: real): real {
    k * x
  }

  function Times(h: seq<real>, k: real): (r: seq<real>)
    ensures |r| == |h|
  {
    seq(|h|, i requires 0 <= i < |h| => Scaled(h[i], k))
  }

  function Enlarged(s: State, k: real): State {
    State(Times(s.history, k), s.side)
  }

  function Rescaled(g: Config, k: real): Config {
    g.(minMove := Scaled(g.minMove, k))
  }

  lemma ScaleOrder(x: real, y: real, k: real)
    requires k > 0.0
    ensures Scaled(x, k) < Scaled(y, k) <==> x < y
  {
    if x < y {
      Positive(k, y - x);
    } else if y < x {
      Positive(k, x - y);
    }
  }

  lemma Positive(k: real, d: real)
    requires k > 0.0 && d > 0.0
    ensures k * d > 0.0
  {
  }

  lemma ScaleZero(k: real)
    ensures Scaled(0.0, k) == 0.0
  {
  }

  lemma ScaleSign(x: real, k: real)
    requires k > 0.0
    ensures Sign(Scaled(x, k)) == Sign(x) && Abs(Scaled(x, k)) == Scaled(Abs(x), k)
  {
    ScaleZero(k);
    ScaleOrder(x, 0.0, k);
    ScaleOrder(0.0, x, k);
  }

  lemma VoteScaled(x: real, minMove: real, k: real)
    requires k > 0.0
    ensures Vote(Scaled(x, k), Scaled(minMove, k)) == Vote(x, minMove)
  {
    ScaleSign(x, k);
    ScaleOrder(minMove, Abs(x), k);
  }

  lemma TimesSnoc(h: seq<real>, x: real, k: real)
    ensures Times(h + [x], k) == Times(h, k) + [Scaled(x, k)]
  {
  }

  lemma VotesSnoc(h: seq<real>, x: real, minMove: real)
    ensures Votes(h + [x], minMove) == Votes(h, minMove) + Vote(x, minMove)
  {
    assert (h + [x])[..|h|] == h;
  }

  lemma {:induction false} VotesScaled(h: seq<real>, minMove: real, k: real)
    requires k > 0.0
    ensures Votes(Times(h, k), Scaled(minMove, k)) == Votes(h, minMove)
  {
    if h == [] {
    } else {
      var h', x := h[..|h| - 1], h[|h| - 1];
      assert h == h' + [x];
      VotesScaled(h', minMove, k);
      TimesSnoc(h', x, k);
      VotesSnoc(Times(h', k), Scaled(x, k), Scaled(minMove, k));
      VotesSnoc(h', x, minMove);
      VoteScaled(x, minMove, k);
    }
  }

  lemma ThreeScaled(a: real, b: real, c: real, k: real)
    ensures Scaled(a, k) + Scaled(b, k) + Scaled(c, k) == Scaled(a + b + c, k)
  {
  }

  lemma ThresholdScaled(minMove: real, k: real)
    ensures 3.0 * Scaled(minMove, k) == Scaled(3.0 * minMove, k)
  {
  }

  lemma RewrittenScaled(input: real, k: real)
    ensures Rewritten(Scaled(input, k)) == Times(Rewritten(input), k)
  {
    ScaleZero(k);
  }

  lemma ExcursionScaled(g: Config, side: int, input: real, k: real)
    requires k > 0.0
    ensures Excursion(Rescaled(g, k), side, Scaled(input, k)) <==> Excursion(g, side, input)
    ensures Abs(Scaled(input, k)) < Rescaled(g, k).minMove <==> Abs(input) < g.minMove
  {
    ScaleSign(input, k);
    ScaleOrder(Abs(input), g.minMove, k);
    ScaleOrder(3.0 * g.minMove, Abs(input), k);
    ThresholdScaled(g.minMove, k);
  }

  lemma AdmittedScaled(g: Config, s: State, input: real, k: real)
    requires ValidState(s) && k > 0.0
    ensures Admitted(Rescaled(g, k), Enlarged(s, k), Scaled(input, k)) == Enlarged(Admitted(g, s, input), k)
  {
    ExcursionScaled(g, s.side, input, k);
    RewrittenScaled(input, k);
    TimesSnoc(s.history[1..], input, k);
    assert Times(s.history, k)[1..] == Times(s.history[1..], k);
  }

  lemma EndsScaled(h: seq<real>, k: real)
    requires |h| == HISTORY_SIZE && k > 0.0
    ensures Oldest(Times(h, k)) == Scaled(Oldest(h), k)
    ensures Newest(Times(h, k)) == Scaled(Newest(h), k)
    ensures Abs(Newest(Times(h, k))) > Abs(Oldest(Times(h, k))) <==> Abs(Newest(h)) > Abs(Oldest(h))
  {
    ThreeScaled(h[0], h[1], h[2], k);
    ThreeScaled(h[9], h[8], h[7], k);
    ScaleSign(Oldest(h), k);
    ScaleSign(Newest(h), k);
    ScaleOrder(Abs(Oldest(h)), Abs(Newest(h)), k);
  }

  lemma MoveScaled(input: real, aggression: real, k: real)
    ensures Move(Scaled(input, k), aggression) == Scaled(Move(input, aggression), k)
  {
  }

  lemma StepScaled(g: Config, s: State, input: real, k: real)
    requires ValidState(s) && k > 0.0
    ensures var (t, move) := Step(g, s, input);
            Step(Rescaled(g, k), Enlarged(s, k), Scaled(input, k)) == (Enlarged(t, k), Scaled(move, k))
  {
    var t := Admitted(g, s, input);
    AdmittedScaled(g, s, input, k);
    VotesScaled(t.history, g.minMove, k);
    EndsScaled(t.history, k);
    ScaleSign(input, k);
    ScaleZero(k);
    ExcursionScaled(g, s.side, input, k);
    MoveScaled(input, g.aggression, k);
  }

  /** Changing the unit of measurement changes nothing but the unit of the moves, over every run. */
  lemma {:induction false} RunScaled(g: Config, s: State, inputs: seq<real>, k: real)
    requires ValidState(s) && k > 0.0
    ensures var (t, moves) := Run(g, s, inputs);
            Run(Rescaled(g, k), Enlarged(s, k), Times(inputs, k)) == (Enlarged(t, k), Times(moves, k))
  {
    hide Step, Admitted, Votes, Enlarged, Rescaled;
    if inputs == [] {
    } else {
      var n := |inputs| - 1;
      RunScaled(g, s, inputs[..n], k);
      assert Times(inputs, k)[..n] == Times(inputs[..n], k);
      var (before, moves) := Run(g, s, inputs[..n]);
      StepScaled(g, before, inputs[n], k);
      TimesSnoc(moves, Step(g, before, inputs[n]).1, k);
    }
  }

  // ----- the algorithm object

  class GuideAlgorithmResistSwitch {
    var history: seq<real>
    var currentSide: int
    var minMove: real
    var aggression: real
    var fastSwitchEnabled: bool

    function Settings(): Config
      reads this
    {
      Config(minMove, aggression, fastSwitchEnabled)
    }

    function View(): State
      reads this
    {
      State(history, currentSide)
    }

    ghost predicate Valid()
      reads this
    {
      ValidState(View()) && minMove > 0.0 && 0.0 <= aggression <= 1.0
    }

    constructor (move: real, aggr: real, enable: bool)
      ensures Valid() && View() == Fresh() && fastSwitchEnabled == enable
      ensures minMove == if move <= 0.0 then DEFAULT_MIN_MOVE else move
      ensures aggression == if aggr < 0.0 || aggr > 1.0 then DEFAULT_AGGRESSION else aggr
    {
      minMove := if move <= 0.0 then DEFAULT_MIN_MOVE else move;
      aggression := if aggr < 0.0 || aggr > 1.0 then DEFAULT_AGGRESSION else aggr;
      fastSwitchEnabled := enable;
      history, currentSide := [], 0;
      new;
      Reset();
    }

    method Reset()
      modifies this`history, this`currentSide
      ensures View() == Fresh()
    {
      history := [];
      while |history| < HISTORY_SIZE
        invariant |history| <= HISTORY_SIZE && forall i :: 0 <= i < |history| ==> history[i] == 0.0
      {
        history := history + [0.0];
      }
      currentSide := 0;
    }

    method SetMinMove(move: real) returns (bError: bool)
      requires Valid()
      modifies this`minMove, this`currentSide
      ensures Valid() && (bError <==> move <= 0.0)
      ensures if bError then minMove == DEFAULT_MIN_MOVE && currentSide == old(currentSide)
              else minMove == move && currentSide == 0
    {
      bError := move <= 0.0;
      if bError {
        minMove := DEFAULT_MIN_MOVE;
      } else {
        minMove := move;
        currentSide := 0;
      }
    }

    /** The excursion path: forgets the side and lets only the new sample speak. */
    method ForceSwitch(input: real)
      requires |history| == HISTORY_SIZE
      modifies this`history, this`currentSide
      ensures View() == State(Rewritten(input), 0)
    {
      currentSide := 0;
      var i := 0;
      while i < HISTORY_SIZE - 3
        invariant 0 <= i <= HISTORY_SIZE - 3 && |history| == HISTORY_SIZE && currentSide == 0
        invariant forall k :: 0 <= k < i ==> history[k] == 0.0
      {
        history := history[i := 0.0];
        i := i + 1;
      }
      while i < HISTORY_SIZE
        invariant HISTORY_SIZE - 3 <= i <= HISTORY_SIZE && |history| == HISTORY_SIZE && currentSide == 0
        invariant forall k :: 0 <= k < i ==> history[k] == if k < HISTORY_SIZE - 3 then 0.0 else input
      {
        history := history[i := input];
        i := i + 1;
      }
      assert history == Rewritten(input);
    }

    method CountVotes() returns (decHistory: int)
      ensures decHistory == Votes(history, minMove)
    {
      decHistory := 0;
      var i := 0;
      while i < |history|
        invariant 0 <= i <= |history| && decHistory == Votes(history[..i], minMove)
      {
        if Abs(history[i]) > minMove {
          decHistory := decHistory + Sign(history[i]);
        }
        assert history[..i + 1][..i] == history[..i];
        i := i + 1;
      }
      assert history[..i] == history;
    }

    method EndSums() returns (oldest: real, newest: real)
      requires |history| == HISTORY_SIZE
      ensures oldest == Oldest(history) && newest == Newest(history)
    {
      oldest, newest := 0.0, 0.0;
      var i := 0;
      while i < 3
        invariant 0 <= i <= 3
        invariant oldest == (if i > 0 then history[0] else 0.0) + (if i > 1 then history[1] else 0.0)
                          + (if i > 2 then history[2] else 0.0)
        invariant newest == (if i > 0 then history[9] else 0.0) + (if i > 1 then history[8] else 0.0)
                          + (if i > 2 then history[7] else 0.0)
      {
        oldest := oldest + history[i];
        newest := newest + history[|history| - (i + 1)];
        i := i + 1;
      }
    }

    /** Takes the sample into the history; the result says whether it is too small to act on. */
    method Admit(input: real) returns (small: bool)
      requires Valid()
      modifies this`history, this`currentSide
      ensures Valid() && View() == Admitted(Settings(), old(View()), input)
      ensures small <==> Abs(input) < minMove
    {
      history := history + [input];
      history := history[1..];
      assert history == old(history)[1..] + [input];
      small := Abs(input) < minMove;
      if !small && fastSwitchEnabled {
        var thresh := 3.0 * minMove;
        if Sign(input) != currentSide && Abs(input) > thresh {
          ForceSwitch(input);
        }
      }
    }

    method Result(input: real) returns (rslt: real)
      requires Valid()
      modifies this`history, this`currentSide
      ensures Valid()
      ensures (View(), rslt) == Step(Settings(), old(View()), input)
    {
      var small := Admit(input);
      if small {
        return 0.0;
      }
      var decHistory := CountVotes();
      if currentSide == 0 || SignInt(currentSide) == -SignInt(decHistory) {
        if AbsInt(decHistory) < 3 {
          return 0.0;
        }
        var oldest, newest := EndSums();
        if Abs(newest) <= Abs(oldest) {
          return 0.0;
        }
        currentSide := SignInt(decHistory);
      }
      if currentSide != Sign(input) {
        return 0.0;
      }
      rslt := Move(input, aggression);
    }
  }
}
