/**
 A quantity with backlash: an index moves between two limits a fixed amount apart and carries them along when it
 passes one of them. The value is the upper limit.
 */
module BacklashPlay {

  datatype Play = Play(cur: real, upper: real, amount: real)

  ghost predicate Inside(p: Play) {
    p.amount >= 0.0 && p.upper - p.amount <= p.cur <= p.upper
  }

  function Clamp(x: real, lo: real, hi: real): real {
    if x < lo then lo else if x > hi then hi else x
  }

  /** The limits follow as little as they can: the upper one is projected onto [cur, cur + amount]. */
  function Advanced(p: Play, d: real): Play {
    Play(p.cur + d, Clamp(p.upper, p.cur + d, p.cur + d + p.amount), p.amount)
  }

  function AdvancedAll(p: Play, ds: seq<real>): Play {
    if ds == [] then p else Advanced(AdvancedAll(p, ds[..|ds| - 1]), ds[|ds| - 1])
  }

  function Total(ds: seq<real>): real {
    if ds == [] then 0.0 else Total(ds[..|ds| - 1]) + ds[|ds| - 1]
  }

  class BacklashVal {
    var cur: real
    var upper: real
    var amount: real

    function View(): Play
      reads this
    {
      Play(cur, upper, amount)
    }

    constructor (backlashAmount: real)
      requires backlashAmount >= 0.0
      ensures View() == Play(0.0, backlashAmount, backlashAmount) && Inside(View())
    {
      cur, upper, amount := 0.0, backlashAmount, backlashAmount;
    }

    method Incr(d: real)
      requires Inside(View())
      modifies this`cur, this`upper
      ensures View() == Advanced(old(View()), d) && Inside(View())
    {
      cur := cur + d;
      if d > 0.0 {
        if cur > upper {
          upper := cur;
        }
      } else if d < 0.0 {
        if cur < upper - amount {
          upper := cur + amount;
        }
      }
    }
  }

  /** Moves in one direction can be made at once or in parts. */
  lemma MovesBatch(p: Play, d: real, e: real)
    requires Inside(p) && ((d >= 0.0 && e >= 0.0) || (d <= 0.0 && e <= 0.0))
    ensures Advanced(Advanced(p, d), e) == Advanced(p, d + e)
  {
  }

  /** Over any sequence of moves the limits are kept and at most the backlash is lost. */
  lemma {:induction false} LosesAtMostBacklash(p: Play, ds: seq<real>)
    requires Inside(p)
    ensures var q := AdvancedAll(p, ds);
            && Inside(q) && q.amount == p.amount && q.cur == p.cur + Total(ds)
            && -p.amount <= q.upper - p.upper - Total(ds) <= p.amount
  {
    if ds == [] {
    } else {
      LosesAtMostBacklash(p, ds[..|ds| - 1]);
    }
  }
}
