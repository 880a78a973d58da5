/**
 * `MovieViz` (src/components/ProjectAnimations.jsx): a ticket price that climbs and falls by 0.5
 * per frame, turning round once it leaves [50, 120]. Every value the price and the trend take is
 * a multiple of 0.5, so the model counts in half-units exactly.
 */
module MovieViz {

  /** `price` and `trend`, both in half-units: the price is `halfPrice / 2`, the trend `halfTrend / 2`. */
  datatype Ticket = Ticket(halfPrice: int, halfTrend: int)

  /** `price = 50`, `trend = 0.5`. */
  const Initial: Ticket := Ticket(100, 1)

  function Price(t: Ticket): real {
    t.halfPrice as real / 2.0
  }

  /** `price += trend`, then the trend flips if the new price is above 120 or below 50. */
  function Step(t: Ticket): Ticket {
    var p := t.halfPrice + t.halfTrend;
    Ticket(p, if p > 240 || p < 100 then -t.halfTrend else t.halfTrend)
  }

  /** The `$` amount on the ticket, `Math.floor(price)`. */
  function Shown(t: Ticket): (d: int)
    ensures d as real <= Price(t) < d as real + 1.0
  {
    t.halfPrice / 2
  }

  /** `k` frames from `t`. */
  function Frames(t: Ticket, k: nat): Ticket
    decreases k
  {
    if k == 0 then t else Step(Frames(t, k - 1))
  }

  /**
   * The reachable tickets: the price in half-units stays in [99, 241], moving by one per frame,
   * and at either end it is already heading back.
   */
  predicate Good(t: Ticket) {
    && (t.halfTrend == 1 || t.halfTrend == -1)
    && 99 <= t.halfPrice <= 241
    && (t.halfPrice == 241 ==> t.halfTrend == -1)
    && (t.halfPrice == 99 ==> t.halfTrend == 1)
  }

  lemma StepGood(t: Ticket)
    requires Good(t)
    ensures Good(Step(t))
  {
  }

  lemma {:induction false} FramesGood(k: nat)
    ensures Good(Frames(Initial, k))
    decreases k
  {
    if k > 0 {
      FramesGood(k - 1);
      StepGood(Frames(Initial, k - 1));
    }
  }

  /** The price never leaves [49.5, 120.5], so the ticket shows between $49 and $120. */
  lemma ShownRange(k: nat)
    ensures 49.5 <= Price(Frames(Initial, k)) <= 120.5
    ensures 49 <= Shown(Frames(Initial, k)) <= 120
  {
    FramesGood(k);
  }

  lemma {:induction false} FramesAdd(t: Ticket, a: nat, b: nat)
    ensures Frames(t, a + b) == Frames(Frames(t, a), b)
    decreases b
  {
    if b > 0 {
      FramesAdd(t, a, b - 1);
    }
  }

  /** While the new price stays within the bounds, a rising price climbs by one half-unit a frame. */
  lemma {:induction false} Rising(p: int, k: nat)
    requires 99 <= p && p + k <= 240
    ensures Frames(Ticket(p, 1), k) == Ticket(p + k, 1)
    decreases k
  {
    if k > 0 {
      Rising(p, k - 1);
    }
  }

  /** While the new price stays within the bounds, a falling price drops by one half-unit a frame. */
  lemma {:induction false} Falling(p: int, k: nat)
    requires p <= 241 && p - k >= 100
    ensures Frames(Ticket(p, -1), k) == Ticket(p - k, -1)
    decreases k
  {
    if k > 0 {
      Falling(p, k - 1);
    }
  }

  /**
   * From the start the price peaks at 120.5 after 141 frames, bottoms out at 49.5 after 283, and
   * is back at 50 and rising after 284: the animation repeats every 284 frames.
   */
  lemma Period()
    ensures Frames(Initial, 141) == Ticket(241, -1) && Shown(Frames(Initial, 141)) == 120
    ensures Frames(Initial, 283) == Ticket(99, 1) && Shown(Frames(Initial, 283)) == 49
    ensures Frames(Initial, 284) == Initial
  {
    Rising(100, 140);
    assert Frames(Initial, 141) == Ticket(241, -1);
    Falling(241, 141);
    FramesAdd(Initial, 141, 141);
    assert Frames(Initial, 282) == Ticket(100, -1);
    assert Frames(Initial, 283) == Ticket(99, 1);
  }

  /** One mounted `MovieViz`. */
  class Scene {
    var halfPrice: int
    var halfTrend: int

    function Snapshot(): Ticket
      reads this
    {
      Ticket(halfPrice, halfTrend)
    }

    constructor ()
      ensures Snapshot() == Initial
    {
      halfPrice := 100;
      halfTrend := 1;
    }

    /** One frame; returns the amount drawn on the ticket. */
    method Frame() returns (shown: int)
      modifies this
      ensures Snapshot() == Step(old(Snapshot()))
      ensures shown == Shown(Snapshot())
    {
      halfPrice := halfPrice + halfTrend;
      if halfPrice > 240 || halfPrice < 100 {
        halfTrend := -halfTrend;
      }
      shown := halfPrice / 2;
    }
  }
}
