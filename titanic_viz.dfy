/**
 * `TitanicViz` (src/components/ProjectAnimations.jsx): a ship sails right until it meets the
 * iceberg, pauses at the impact, sinks until it is below the canvas, and starts over. The
 * sine of the wave phase that makes the ship bob is an input of each frame.
 */
module TitanicViz {

  datatype Phase = Sailing | Impact | Sinking | Reset

  /** The phase the state machine may move to from `p`. */
  function Successor(p: Phase): Phase {
    match p
    case Sailing => Impact
    case Impact => Sinking
    case Sinking => Reset
    case Reset => Sailing
  }

  datatype Ship = Ship(x: real, y: real, rotation: real, phase: Phase, sinkDelay: int)

  /** The closure variables at mount. */
  const Start: Ship := Ship(-100.0, 0.0, 0.0, Sailing, 0)

  /** Frames the ship pauses at the iceberg before sinking. */
  const ImpactFrames: nat := 41

  function IceX(width: nat): real {
    width as real * 0.75
  }

  /** The bobbing height: 20 pixels above the water line at 65% of the height, plus five times the wave sine. */
  function Bob(height: nat, wave: real): real {
    height as real * 0.65 - 20.0 + wave * 5.0
  }

  /** The ship logic of one frame. */
  function Step(s: Ship, width: nat, height: nat, wave: real): Ship {
    match s.phase
    case Sailing =>
      var x := s.x + 1.0;
      s.(x := x, y := Bob(height, wave), phase := if x + 130.0 >= IceX(width) then Impact else Sailing)
    case Impact =>
      var d := s.sinkDelay + 1;
      s.(sinkDelay := d, y := Bob(height, wave), phase := if d > 40 then Sinking else Impact)
    case Sinking =>
      var y := s.y + 0.5;
      s.(x := s.x + 0.1, y := y, rotation := s.rotation + 0.008,
         phase := if y > height as real + 100.0 then Reset else Sinking)
    case Reset =>
      s.(x := -130.0, rotation := 0.0, sinkDelay := 0, phase := Sailing)
  }

  /** Frames in order, one wave sine each, on a canvas of fixed size. */
  function Run(s: Ship, width: nat, height: nat, waves: seq<real>): Ship
    decreases |waves|
  {
    if waves == [] then s else Run(Step(s, width, height, waves[0]), width, height, waves[1..])
  }

  /** The state only moves along sailing → impact → sinking → reset → sailing. */
  lemma PhaseOrder(s: Ship, width: nat, height: nat, wave: real)
    ensures var p := Step(s, width, height, wave).phase; p == s.phase || p == Successor(s.phase)
    ensures s.phase == Reset ==> Step(s, width, height, wave).phase == Sailing
  {
  }

  /** Sailing turns into impact exactly when the bow, 130 pixels ahead of `shipX`, reaches 75% of the width. */
  lemma ImpactCondition(s: Ship, width: nat, height: nat, wave: real)
    requires s.phase == Sailing
    ensures Step(s, width, height, wave).phase == Impact <==> s.x + 1.0 + 130.0 >= IceX(width)
    ensures Step(s, width, height, wave).phase != Impact ==> Step(s, width, height, wave).phase == Sailing
  {
  }

  /** Reset puts the ship back at -130 with no rotation and no delay, sailing, in one frame. */
  lemma ResetRestarts(s: Ship, width: nat, height: nat, wave: real)
    requires s.phase == Reset
    ensures var t := Step(s, width, height, wave);
      t.x == -130.0 && t.rotation == 0.0 && t.sinkDelay == 0 && t.phase == Sailing && t.y == s.y
  {
  }

  /** The ship only moves forward, except when reset takes it back to the start. */
  lemma XOnlyResetGoesBack(s: Ship, width: nat, height: nat, wave: real)
    ensures s.phase != Reset ==> Step(s, width, height, wave).x >= s.x
    ensures s.phase == Reset ==> Step(s, width, height, wave).x == -130.0
  {
  }

  /** The delay counter agrees with the phase: 0 while sailing, 0..40 at the impact, 41 afterwards. */
  predicate Good(s: Ship) {
    match s.phase
    case Sailing => s.sinkDelay == 0
    case Impact => 0 <= s.sinkDelay <= 40
    case Sinking => s.sinkDelay == ImpactFrames
    case Reset => s.sinkDelay == ImpactFrames
  }

  lemma StepGood(s: Ship, width: nat, height: nat, wave: real)
    requires Good(s)
    ensures Good(Step(s, width, height, wave))
  {
  }

  lemma {:induction false} RunGood(s: Ship, width: nat, height: nat, waves: seq<real>)
    requires Good(s)
    ensures Good(Run(s, width, height, waves))
    decreases |waves|
  {
    if waves != [] {
      StepGood(s, width, height, waves[0]);
      RunGood(Step(s, width, height, waves[0]), width, height, waves[1..]);
    }
  }

  /** Each impact frame adds one to the delay while it stays at most 40. */
  lemma {:induction false} ImpactCountsFrames(s: Ship, width: nat, height: nat, waves: seq<real>)
    requires s.phase == Impact && 0 <= s.sinkDelay && s.sinkDelay + |waves| <= 40
    ensures Run(s, width, height, waves).phase == Impact
    ensures Run(s, width, height, waves).sinkDelay == s.sinkDelay + |waves|
    ensures Run(s, width, height, waves).x == s.x
    decreases |waves|
  {
    if waves != [] {
      ImpactCountsFrames(Step(s, width, height, waves[0]), width, height, waves[1..]);
    }
  }

  /** `Run` over a sequence split in two is the second run after the first. */
  lemma {:induction false} RunAppend(s: Ship, width: nat, height: nat, a: seq<real>, b: seq<real>)
    ensures Run(s, width, height, a + b) == Run(Run(s, width, height, a), width, height, b)
    decreases |a|
  {
    if a != [] {
      assert (a + b)[1..] == a[1..] + b;
      RunAppend(Step(s, width, height, a[0]), width, height, a[1..], b);
    } else {
      assert a + b == b;
    }
  }

  /** The impact lasts exactly 41 frames: after 40 the ship is still at the iceberg, after the 41st it sinks. */
  lemma ImpactLastsExactly41Frames(s: Ship, width: nat, height: nat, waves: seq<real>)
    requires s.phase == Impact && s.sinkDelay == 0 && |waves| == ImpactFrames
    ensures Run(s, width, height, waves[..40]).phase == Impact
    ensures Run(s, width, height, waves).phase == Sinking
  {
    ImpactCountsFrames(s, width, height, waves[..40]);
    assert waves == waves[..40] + [waves[40]];
    RunAppend(s, width, height, waves[..40], [waves[40]]);
    var m := Run(s, width, height, waves[..40]);
    assert Run(m, width, height, [waves[40]]) == Step(m, width, height, waves[40]);
  }

  /** While sinking and still above the reset depth, each frame drops the ship by 0.5 pixels. */
  lemma {:induction false} SinkingDescends(s: Ship, width: nat, height: nat, waves: seq<real>)
    requires s.phase == Sinking && s.y + 0.5 * |waves| as real <= height as real + 100.0
    ensures Run(s, width, height, waves).phase == Sinking
    ensures Run(s, width, height, waves).y == s.y + 0.5 * |waves| as real
    decreases |waves|
  {
    if waves != [] {
      SinkingDescends(Step(s, width, height, waves[0]), width, height, waves[1..]);
    }
  }

  /** The number of sinking frames until the ship is more than 100 pixels below the canvas. */
  function FramesToReset(y: real, height: nat): (n: nat)
    ensures n >= 1
    ensures y + 0.5 * n as real > height as real + 100.0
    ensures y + 0.5 * (n - 1) as real <= height as real + 100.0 || n == 1
  {
    var gap := height as real + 100.0 - y;
    if gap < 0.0 then 1 else (2.0 * gap).Floor + 1
  }

  /** Sinking always ends: after exactly `FramesToReset` frames the ship is in the reset phase. */
  lemma SinkingReachesReset(s: Ship, width: nat, height: nat, waves: seq<real>)
    requires s.phase == Sinking && |waves| == FramesToReset(s.y, height)
    ensures Run(s, width, height, waves).phase == Reset
  {
    var n := |waves|;
    var head := waves[..n - 1];
    if n == 1 {
      assert Run(s, width, height, head) == s;
    } else {
      SinkingDescends(s, width, height, head);
    }
    var m := Run(s, width, height, head);
    assert m.phase == Sinking && m.y == s.y + 0.5 * (n - 1) as real;
    assert waves == head + [waves[n - 1]];
    RunAppend(s, width, height, head, [waves[n - 1]]);
    assert Run(m, width, height, [waves[n - 1]]) == Step(m, width, height, waves[n - 1]);
  }

  /** One mounted `TitanicViz`. */
  class Scene {
    var width: nat
    var height: nat
    var shipX: real
    var shipY: real
    var rotation: real
    var state: Phase
    var sinkDelay: int
    var waveOffset: real

    function Snapshot(): Ship
      reads this
    {
      Ship(shipX, shipY, rotation, state, sinkDelay)
    }

    constructor (width: nat, height: nat)
      ensures this.width == width && this.height == height
      ensures Snapshot() == Start && waveOffset == 0.0
    {
      this.width := width;
      this.height := height;
      shipX := -100.0;
      shipY := 0.0;
      rotation := 0.0;
      state := Sailing;
      sinkDelay := 0;
      waveOffset := 0.0;
    }

    method Resize(w: nat, h: nat)
      modifies this
      ensures width == w && height == h && Snapshot() == old(Snapshot()) && waveOffset == old(waveOffset)
    {
      width := w;
      height := h;
    }

    /** One frame; `wave` is `Math.sin(shipX * 0.02 + waveOffset)` of this frame. */
    method Frame(wave: real)
      modifies this
      ensures Snapshot() == Step(old(Snapshot()), width, height, wave)
      ensures waveOffset == old(waveOffset) + 0.05
      ensures width == old(width) && height == old(height)
    {
      waveOffset := waveOffset + 0.05;
      var waterLevel := height as real * 0.65;
      var iceX := width as real * 0.75;
      if state == Sailing {
        shipX := shipX + 1.0;
        shipY := waterLevel - 20.0 + wave * 5.0;
        if shipX + 130.0 >= iceX {
          state := Impact;
        }
      } else if state == Impact {
        sinkDelay := sinkDelay + 1;
        shipY := waterLevel - 20.0 + wave * 5.0;
        if sinkDelay > 40 {
          state := Sinking;
        }
      } else if state == Sinking {
        shipX := shipX + 0.1;
        shipY := shipY + 0.5;
        rotation := rotation + 0.008;
        if shipY > height as real + 100.0 {
          state := Reset;
        }
      } else {
        shipX := -130.0;
        rotation := 0.0;
        sinkDelay := 0;
        state := Sailing;
      }
    }
  }
}
