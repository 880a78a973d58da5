/**
 * `McqViz` (src/components/ProjectAnimations.jsx): a document with a scan beam moving down 100
 * pixels two at a time, an AI pulse shown for 20 ticks of every 60 and the answer cards shown
 * for the second half of every 120 ticks. The cards' orbit is drawing only.
 */
module McqViz {

  import opened Modular

  /** `scanY = (scanY + 2) % 100`; `scanY` starts at 0, so it is never negative. */
  function NextScan(y: nat): (r: nat)
    ensures 0 <= r < 100
  {
    (y + 2) % 100
  }

  /** The beam after `k` frames from the top of the document. */
  function ScanAfter(k: nat): nat
    decreases k
  {
    if k == 0 then 0 else NextScan(ScanAfter(k - 1))
  }

  /** After `k` frames the beam is at `2k mod 100`. */
  lemma {:induction false} ScanPosition(k: nat)
    ensures ScanAfter(k) == (2 * k) % 100
    decreases k
  {
    if k > 0 {
      ScanPosition(k - 1);
      var y := (2 * (k - 1)) % 100;
      var q := (2 * (k - 1)) / 100;
      assert 2 * k == q * 100 + (y + 2);
      ModShift(y + 2, q, 100);
    }
  }

  /** The beam is always at an even offset, and it repeats every 50 frames. */
  lemma ScanEvenAndPeriodic(k: nat)
    ensures ScanAfter(k) % 2 == 0
    ensures ScanAfter(k + 50) == ScanAfter(k)
  {
    ScanPosition(k);
    ScanPosition(k + 50);
    ModShift(2 * k, 1, 100);
    var m := k - 50 * ((2 * k) / 100);
    assert (2 * k) % 100 == m * 2;
    ModShift(0, m, 2);
  }

  /** The pulse is drawn on ticks whose remainder by 60 is below 20. */
  predicate Pulse(tick: int) {
    tick % 60 < 20
  }

  /** The cards are drawn on ticks whose remainder by 120 is above 60. */
  predicate Cards(tick: int) {
    tick % 120 > 60
  }

  /** The pulse repeats every 60 ticks and the cards every 120. */
  lemma Periodic(tick: nat)
    ensures Pulse(tick + 60) == Pulse(tick)
    ensures Cards(tick + 120) == Cards(tick)
  {
    ModShift(tick, 1, 60);
    ModShift(tick, 1, 120);
  }

  /** Pulse and cards are on together exactly on ticks 61 to 79 of every 120. */
  lemma Overlap(tick: nat)
    ensures Pulse(tick) && Cards(tick) <==> 61 <= tick % 120 <= 79
  {
    var r := tick % 120;
    var q := tick / 120;
    assert tick == (2 * q) * 60 + r;
    ModShift(r, 2 * q, 60);
    assert tick % 60 == r % 60;
  }

  /** One mounted `McqViz`. */
  class Scene {
    var tick: int
    var scanY: nat

    constructor ()
      ensures tick == 0 && scanY == 0
    {
      tick := 0;
      scanY := 0;
    }

    /** One frame; returns whether the pulse and the cards are drawn. */
    method Frame() returns (pulse: bool, cards: bool)
      modifies this
      ensures tick == old(tick) + 1 && scanY == NextScan(old(scanY))
      ensures pulse == Pulse(tick) && cards == Cards(tick)
    {
      tick := tick + 1;
      scanY := (scanY + 2) % 100;
      pulse := tick % 60 < 20;
      cards := tick % 120 > 60;
    }
  }
}
