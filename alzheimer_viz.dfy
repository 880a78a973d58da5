/**
 * `AlzheimerViz` (src/components/ProjectAnimations.jsx): an oval cloud of 150 particles and a
 * horizontal scan line moving down the canvas two pixels per frame; particles near the line
 * are drawn larger. The random draws and the cosine and sine of the random angle are inputs.
 */
module AlzheimerViz {

  import opened Modular

  /** The number of particles `init` creates. */
  const ParticleCount: nat := 150

  /** Half-width of the particle cloud: the radius bound 60 stretched by 1.2. */
  const HalfWidth: real := 72.0

  /** Half-height of the particle cloud: the radius bound 60 squashed by 0.9. */
  const HalfHeight: real := 54.0

  datatype Particle = Particle(x: real, y: real, baseX: real, baseY: real, size: real, active: bool)

  /**
   * The random inputs of one particle: cosine and sine of the random angle, the radius draw
   * and the size draw.
   */
  datatype Draw = Draw(cos: real, sin: real, radiusRoll: real, sizeRoll: real)

  /** What `Math.random()` and the trigonometric functions can produce. */
  predicate ValidDraw(d: Draw) {
    d.cos * d.cos + d.sin * d.sin == 1.0 && 0.0 <= d.radiusRoll < 1.0 && 0.0 <= d.sizeRoll < 1.0
  }

  /** One pushed particle, around the centre `(cx, cy)`. */
  function Spawn(cx: real, cy: real, d: Draw): Particle {
    var radius := d.radiusRoll * 60.0;
    var x := cx + d.cos * (radius * 1.2);
    var y := cy + d.sin * (radius * 0.9);
    Particle(x, y, x, y, d.sizeRoll * 2.0 + 1.0, false)
  }

  /**
   * A new particle is inactive, rests at its base position, has a size in [1, 3), and lies in
   * the oval of half-axes 72 and 54 around the centre.
   */
  lemma SpawnShape(cx: real, cy: real, d: Draw)
    requires ValidDraw(d)
    ensures var p := Spawn(cx, cy, d);
      && !p.active && p.baseX == p.x && p.baseY == p.y
      && 1.0 <= p.size < 3.0
      && (p.x - cx) * (p.x - cx) / (HalfWidth * HalfWidth)
         + (p.y - cy) * (p.y - cy) / (HalfHeight * HalfHeight) < 1.0
  {
    var r := d.radiusRoll;
    var p := Spawn(cx, cy, d);
    assert p.x - cx == HalfWidth * (d.cos * r);
    assert p.y - cy == HalfHeight * (d.sin * r);
    assert (p.x - cx) * (p.x - cx) / (HalfWidth * HalfWidth) == (d.cos * r) * (d.cos * r);
    assert (p.y - cy) * (p.y - cy) / (HalfHeight * HalfHeight) == (d.sin * r) * (d.sin * r);
    assert (d.cos * r) * (d.cos * r) + (d.sin * r) * (d.sin * r) == (d.cos * d.cos + d.sin * d.sin) * (r * r);
    assert r * r < 1.0 by {
      assert r * r <= r * 1.0;
    }
  }

  /** The particles `init` pushes, one per draw, in order. */
  function Spawns(cx: real, cy: real, draws: seq<Draw>): (ps: seq<Particle>)
    ensures |ps| == |draws|
    ensures forall i | 0 <= i < |draws| :: ps[i] == Spawn(cx, cy, draws[i])
  {
    seq(|draws|, i requires 0 <= i < |draws| => Spawn(cx, cy, draws[i]))
  }

  /** The scan line position; `x % 0` is NaN in JavaScript, and NaN stays NaN. */
  datatype Scan = At(y: int) | NaN

  /** `scanY = (scanY + 2) % canvas.height`. */
  function NextScan(s: Scan, height: nat): (r: Scan)
    ensures s.At? && s.y >= 0 && height > 0 ==> r.At? && 0 <= r.y < height
    ensures (s.NaN? || height == 0) <==> r.NaN?
  {
    match s
    case NaN => NaN
    case At(y) => if height == 0 then NaN else At((y + 2) % height)
  }

  function Abs(r: real): real {
    if r < 0.0 then -r else r
  }

  /** A particle within 20 pixels of the scan line is drawn with size 3, every other one with 1.5. */
  function Rescan(p: Particle, s: Scan): (q: Particle)
    ensures q.size == 3.0 <==> s.At? && Abs(p.y - s.y as real) < 20.0
    ensures q.size == 1.5 <==> !(s.At? && Abs(p.y - s.y as real) < 20.0)
    ensures q.(size := p.size) == p
  {
    if s.At? && Abs(p.y - s.y as real) < 20.0 then p.(size := 3.0) else p.(size := 1.5)
  }

  function Rescanned(ps: seq<Particle>, s: Scan): (qs: seq<Particle>)
    ensures |qs| == |ps|
    ensures forall i | 0 <= i < |ps| :: qs[i] == Rescan(ps[i], s)
  {
    seq(|ps|, i requires 0 <= i < |ps| => Rescan(ps[i], s))
  }

  /** `k` frames of the scan line from `s` on a canvas of fixed height. */
  function ScanAfter(s: Scan, height: nat, k: nat): Scan
    decreases k
  {
    if k == 0 then s else NextScan(ScanAfter(s, height, k - 1), height)
  }

  /** From the top of a canvas of positive height, the line is at `2k mod height` after `k` frames. */
  lemma {:induction false} ScanPosition(height: nat, k: nat)
    requires height > 0
    ensures ScanAfter(At(0), height, k) == At((2 * k) % height)
    decreases k
  {
    if k > 0 {
      ScanPosition(height, k - 1);
      var y := (2 * (k - 1)) % height;
      assert (y + 2) % height == (2 * k) % height by {
        var q := (2 * (k - 1)) / height;
        assert 2 * (k - 1) == q * height + y;
        assert 2 * k == q * height + (y + 2);
        ModShift(y + 2, q, height);
      }
    }
  }

  /** A canvas of height 0 turns the scan line into NaN for good, whatever heights follow. */
  lemma {:induction false} NaNIsSticky(height: nat, k: nat)
    ensures ScanAfter(NaN, height, k) == NaN
    decreases k
  {
    if k > 0 {
      NaNIsSticky(height, k - 1);
    }
  }

  /** The mutable state of one mounted `AlzheimerViz`. */
  class Scene {
    var width: nat
    var height: nat
    var particles: seq<Particle>
    var scan: Scan

    /** Mounting: `init()` with the container size, then `scanY = 0`. */
    constructor (width: nat, height: nat, draws: seq<Draw>)
      requires |draws| == ParticleCount
      ensures this.width == width && this.height == height
      ensures particles == Spawns(width as real / 2.0, height as real / 2.0, draws)
      ensures scan == At(0)
    {
      this.width := 0;
      this.height := 0;
      particles := [];
      scan := At(0);
      new;
      Init(width, height, draws);
    }

    /** `init` (also the resize handler): clear the particle list and push 150 fresh particles. */
    method Init(w: nat, h: nat, draws: seq<Draw>)
      requires |draws| == ParticleCount
      modifies this
      ensures width == w && height == h
      ensures particles == Spawns(w as real / 2.0, h as real / 2.0, draws)
      ensures scan == old(scan)
    {
      width := w;
      height := h;
      var cx := w as real / 2.0;
      var cy := h as real / 2.0;
      particles := [];
      var i := 0;
      while i < ParticleCount
        invariant 0 <= i <= ParticleCount
        invariant width == w && height == h && scan == old(scan)
        invariant particles == Spawns(cx, cy, draws[..i])
      {
        particles := particles + [Spawn(cx, cy, draws[i])];
        i := i + 1;
      }
      assert draws[..i] == draws;
    }

    /** One frame: move the scan line, then resize every particle against it. */
    method Frame()
      modifies this
      ensures scan == NextScan(old(scan), height)
      ensures particles == Rescanned(old(particles), scan)
      ensures width == old(width) && height == old(height)
    {
      scan := NextScan(scan, height);
      var i := 0;
      while i < |particles|
        invariant 0 <= i <= |particles| == |old(particles)|
        invariant scan == NextScan(old(scan), height)
        invariant width == old(width) && height == old(height)
        invariant forall j | 0 <= j < i :: particles[j] == Rescan(old(particles)[j], scan)
        invariant forall j | i <= j < |particles| :: particles[j] == old(particles)[j]
      {
        particles := particles[i := Rescan(particles[i], scan)];
        i := i + 1;
      }
    }
  }

  /** `init` always leaves exactly 150 inactive particles, so resizing never accumulates any. */
  lemma InitShape(cx: real, cy: real, draws: seq<Draw>)
    requires |draws| == ParticleCount
    requires forall i | 0 <= i < |draws| :: ValidDraw(draws[i])
    ensures |Spawns(cx, cy, draws)| == 150
    ensures forall i | 0 <= i < 150 :: !Spawns(cx, cy, draws)[i].active
    ensures forall i | 0 <= i < 150 :: 1.0 <= Spawns(cx, cy, draws)[i].size < 3.0
  {
    forall i | 0 <= i < 150
      ensures !Spawns(cx, cy, draws)[i].active && 1.0 <= Spawns(cx, cy, draws)[i].size < 3.0
    {
      SpawnShape(cx, cy, draws[i]);
    }
  }

  /** A frame moves no particle and activates none; it only sets sizes to 3 or 1.5. */
  lemma RescanKeepsPositions(ps: seq<Particle>, s: Scan)
    ensures forall i | 0 <= i < |ps| ::
      && Rescanned(ps, s)[i].x == ps[i].x && Rescanned(ps, s)[i].y == ps[i].y
      && Rescanned(ps, s)[i].active == ps[i].active
      && (Rescanned(ps, s)[i].size == 3.0 || Rescanned(ps, s)[i].size == 1.5)
  {
    forall i | 0 <= i < |ps|
      ensures Rescanned(ps, s)[i].x == ps[i].x && Rescanned(ps, s)[i].y == ps[i].y
    {
      assert Rescanned(ps, s)[i] == Rescan(ps[i], s);
    }
  }
}
