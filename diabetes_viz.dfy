/**
 * `DiabetesViz` (src/components/ProjectAnimations.jsx): a dot sweeping right three pixels per
 * frame across the canvas, wrapping to the left edge, with a heartbeat dip in the middle of
 * every 100-pixel stretch. The sine of the dip's phase is an input.
 */
module DiabetesViz {

  /** `x += 3; if (x > canvas.width) x = 0`. */
  function NextX(x: int, width: nat): (r: int)
    ensures x >= -3 ==> 0 <= r <= width
    ensures x % 3 == 0 ==> r % 3 == 0
    ensures r == 0 || r == x + 3
  {
    if x + 3 > width then 0 else x + 3
  }

  /** `k` frames of the dot from `x` on a canvas of fixed width. */
  function XAfter(x: int, width: nat, k: nat): int
    decreases k
  {
    if k == 0 then x else NextX(XAfter(x, width, k - 1), width)
  }

  /** From the left edge, the dot is at `3k` after `k` frames while that fits on the canvas. */
  lemma {:induction false} SweepPosition(width: nat, k: nat)
    requires 3 * k <= width
    ensures XAfter(0, width, k) == 3 * k
    decreases k
  {
    if k > 0 {
      SweepPosition(width, k - 1);
    }
  }

  /** One sweep takes `width / 3 + 1` frames: the dot is back at the left edge after that many. */
  lemma SweepPeriod(width: nat)
    ensures XAfter(0, width, width / 3 + 1) == 0
    ensures forall k | 0 < k <= width / 3 :: XAfter(0, width, k) != 0
  {
    SweepPosition(width, width / 3);
    forall k | 0 < k <= width / 3
      ensures XAfter(0, width, k) != 0
    {
      SweepPosition(width, k);
    }
  }

  /** The dot is in the dip window when `x % 100` lies strictly between 40 and 60. */
  predicate InDip(x: int) {
    40 < x % 100 < 60
  }

  /**
   * The dot's height: the middle of the canvas, raised by `sine * 40` inside the dip window,
   * where `sine` is `Math.sin((x % 100 - 40) * 0.3)`.
   */
  function HeartbeatY(height: nat, x: int, sine: real): (y: real)
    ensures -1.0 <= sine <= 1.0 ==> height as real / 2.0 - 40.0 <= y <= height as real / 2.0 + 40.0
    ensures y != height as real / 2.0 ==> InDip(x)
    ensures InDip(x) ==> y == height as real / 2.0 - sine * 40.0
  {
    var y := height as real / 2.0;
    if InDip(x) then y - sine * 40.0 else y
  }

  /**
   * In the first 100-pixel stretch, the dip spans positions 42 to 57 of the three-pixel grid the
   * dot reaches from the left edge. Later stretches start at other offsets of that grid.
   */
  lemma DipPositions(x: int)
    requires x >= 0 && x % 3 == 0 && x < 100
    ensures InDip(x) <==> 42 <= x <= 57
  {
  }

  /** In the second stretch the grid is offset by one: the dip spans positions 141 to 159. */
  lemma DipPositionsSecondStretch(x: int)
    requires x % 3 == 0 && 100 <= x < 200
    ensures InDip(x) <==> 141 <= x <= 159
  {
    assert x % 100 == x - 100;
  }

  /** One mounted `DiabetesViz`. */
  class Scene {
    var width: nat
    var height: nat
    var x: int

    constructor (width: nat, height: nat)
      ensures this.width == width && this.height == height && x == 0
    {
      this.width := width;
      this.height := height;
      x := 0;
    }

    /** The resize handler; the dot keeps its position until the next frame wraps it. */
    method Resize(w: nat, h: nat)
      modifies this
      ensures width == w && height == h && x == old(x)
    {
      width := w;
      height := h;
    }

    /** One frame; returns the height the dot is drawn at. */
    method Frame(sine: real) returns (y: real)
      modifies this
      ensures x == NextX(old(x), width)
      ensures y == HeartbeatY(height, x, sine)
      ensures width == old(width) && height == old(height)
    {
      x := x + 3;
      if x > width {
        x := 0;
      }
      y := height as real / 2.0;
      if x % 100 > 40 && x % 100 < 60 {
        y := y - sine * 40.0;
      }
    }
  }
}
