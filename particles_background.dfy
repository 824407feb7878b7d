/**
 * The 2D particle field drawn behind the page.
 *
 * The field holds one particle per 15000 square pixels of the canvas (the
 * viewport width times the full document height). Each frame every particle
 * drifts by its velocity, the nearer half of them are pushed away from the
 * pointer when it is within 150 pixels, and particles that leave the canvas
 * by more than a 10-pixel margin re-enter at the opposite edge. A resize
 * throws the whole field away and creates a new one.
 */
module ParticlesBackground {

  /** One particle; `depth` in [0, 1) is 0 for far and near 1 for close particles. */
  datatype Particle = Particle(x: real, y: real, size: real, speedX: real, speedY: real, opacity: real, depth: real)

  /** The five `Math.random()` values one new particle draws, in the order the code draws them. */
  datatype Draw = Draw(depth: real, rx: real, ry: real, rsx: real, rsy: real)

  /** A value `Math.random()` can return. */
  predicate Unit(r: real) { 0.0 <= r < 1.0 }

  predicate ValidDraw(d: Draw) {
    Unit(d.depth) && Unit(d.rx) && Unit(d.ry) && Unit(d.rsx) && Unit(d.rsy)
  }

  // ---------------------------------------------------------------------------
  // Creation
  // ---------------------------------------------------------------------------

  /** `Math.floor(width * height / 15000)`: the number of particles for a canvas. */
  function Count(width: real, height: real): (n: nat)
    requires 0.0 <= width && 0.0 <= height
    ensures n as real * 15000.0 <= width * height < (n + 1) as real * 15000.0
    ensures n == 0 <==> width * height < 15000.0
  {
    (width * height / 15000.0).Floor
  }

  /** `(Math.random() - 0.5) * scale * (0.5 + depth * 0.5)`: a random speed, slower for far particles. */
  function Speed(r: real, depth: real, scale: real): real {
    (r - 0.5) * scale * (0.5 + depth * 0.5)
  }

  /** The particle built from one draw of random values. */
  function NewParticle(width: real, height: real, d: Draw): Particle {
    Particle(
      d.rx * width,
      d.ry * height,
      1.0 + d.depth * 2.0,
      Speed(d.rsx, d.depth, 0.3),
      Speed(d.rsy, d.depth, 0.2),
      0.15 + d.depth * 0.2,
      d.depth)
  }

  /** A product of two positive numbers is positive. */
  lemma MulPositive(a: real, b: real)
    requires 0.0 < a && 0.0 < b
    ensures 0.0 < a * b
  {
  }

  /** Scaling a canvas extent by a random value lands on the canvas. */
  lemma UnitScale(r: real, extent: real)
    requires Unit(r) && 0.0 < extent
    ensures 0.0 <= r * extent < extent
  {
    var rest := (1.0 - r) * extent;
    MulPositive(1.0 - r, extent);
    assert rest == extent - r * extent;
  }

  /** A random value, centred and scaled, lies in `[-scale / 2, scale / 2)`. */
  lemma CentredScale(r: real, scale: real)
    requires Unit(r) && 0.0 < scale
    ensures -scale / 2.0 <= (r - 0.5) * scale < scale / 2.0
  {
    UnitScale(r, scale);
    assert (r - 0.5) * scale == r * scale - scale / 2.0;
  }

  /** Multiplying by a factor in [0.5, 1) shrinks a number toward zero without crossing it. */
  lemma Shrink(a: real, b: real)
    requires 0.5 <= b < 1.0
    ensures 0.0 <= a ==> 0.0 <= a * b <= a
    ensures a < 0.0 ==> a <= a * b < 0.0
  {
    if 0.0 < a {
      MulPositive(a, 1.0 - b);
      assert a - a * b == a * (1.0 - b);
      MulPositive(a, b);
    } else if a < 0.0 {
      MulPositive(-a, 1.0 - b);
      assert a * b - a == -a * (1.0 - b);
      MulPositive(-a, b);
      assert a * b == -(-a * b);
    }
  }

  /** A number within `h` of zero stays strictly within `h` after shrinking by a factor in [0.5, 1). */
  lemma ShrinkWithin(a: real, b: real, h: real)
    requires -h <= a < h && 0.5 <= b < 1.0
    ensures -h < a * b < h
  {
    Shrink(a, b);
    if a == -h {
      MulPositive(h, 1.0 - b);
      assert h * (1.0 - b) == h - h * b;
      calc {
        -h;
      <  -(h * b);
      == a * b;
      }
    } else if a < 0.0 {
      calc {
        -h;
      <  a;
      <= a * b;
      }
    } else {
      calc {
        -h;
      <  0.0;
      <= a * b;
      }
    }
  }

  /** A random speed lies strictly within `scale / 2` of zero. */
  lemma SpeedBound(r: real, depth: real, scale: real)
    requires Unit(r) && Unit(depth) && 0.0 < scale
    ensures -scale / 2.0 < Speed(r, depth, scale) < scale / 2.0
  {
    var a := (r - 0.5) * scale;
    var b := 0.5 + depth * 0.5;
    CentredScale(r, scale);
    ShrinkWithin(a, b, scale / 2.0);
  }

  /** A new particle lies on the canvas. */
  lemma NewParticleOnCanvas(width: real, height: real, d: Draw)
    requires 0.0 < width && 0.0 < height && ValidDraw(d)
    ensures 0.0 <= NewParticle(width, height, d).x < width
    ensures 0.0 <= NewParticle(width, height, d).y < height
  {
    UnitScale(d.rx, width);
    assert d.rx * width < width;
    UnitScale(d.ry, height);
    assert d.ry * height < height;
    assert NewParticle(width, height, d).x == d.rx * width;
    assert NewParticle(width, height, d).y == d.ry * height;
  }

  /**
   * A new particle's size, opacity and speeds stay within the ranges its
   * depth and random values allow.
   */
  lemma NewParticleRanges(width: real, height: real, d: Draw)
    requires ValidDraw(d)
    ensures 1.0 <= NewParticle(width, height, d).size < 3.0
    ensures 0.15 <= NewParticle(width, height, d).opacity < 0.35
    ensures -0.15 < NewParticle(width, height, d).speedX < 0.15
    ensures -0.1 < NewParticle(width, height, d).speedY < 0.1
    ensures NewParticle(width, height, d).depth == d.depth
  {
    SpeedBound(d.rsx, d.depth, 0.3);
    SpeedBound(d.rsy, d.depth, 0.2);
  }

  /** `createParticles`: push one new particle per draw, as many as the canvas area allows. */
  method CreateParticles(width: real, height: real, draws: seq<Draw>) returns (particles: seq<Particle>)
    requires 0.0 <= width && 0.0 <= height
    requires Count(width, height) <= |draws|
    ensures |particles| == Count(width, height)
    ensures forall i :: 0 <= i < |particles| ==> particles[i] == NewParticle(width, height, draws[i])
  {
    particles := [];
    var count := Count(width, height);
    var i := 0;
    while i < count
      invariant 0 <= i <= count
      invariant |particles| == i
      invariant forall j :: 0 <= j < i ==> particles[j] == NewParticle(width, height, draws[j])
    {
      var depth := draws[i].depth;
      var p := Particle(
        draws[i].rx * width,
        draws[i].ry * height,
        1.0 + depth * 2.0,
        Speed(draws[i].rsx, depth, 0.3),
        Speed(draws[i].rsy, depth, 0.2),
        0.15 + depth * 0.2,
        depth);
      particles := particles + [p];
      i := i + 1;
    }
  }

  // ---------------------------------------------------------------------------
  // One frame of one particle
  // ---------------------------------------------------------------------------

  /** `sqrt` returns the non-negative square root of every non-negative number, as `Math.sqrt` does. */
  ghost predicate IsSqrt(sqrt: real -> real) {
    forall s :: 0.0 <= s ==> 0.0 <= sqrt(s) && sqrt(s) * sqrt(s) == s
  }

  /** Drift by the particle's own velocity. */
  function Advance(p: Particle): Particle {
    p.(x := p.x + p.speedX, y := p.y + p.speedY)
  }

  /** The push a particle `distance` pixels from the pointer receives. */
  function Force(distance: real): (f: real)
    ensures 0.0 <= distance < 150.0 ==> 0.0 < f <= 0.02
  {
    (150.0 - distance) / 150.0 * 0.02
  }

  /** `dx * dx + dy * dy` for the offset from a particle to the pointer. */
  function SquaredDistance(p: Particle, mouseX: real, mouseY: real): (s: real)
    ensures 0.0 <= s
  {
    var dx := mouseX - p.x;
    var dy := mouseY - p.y;
    dx * dx + dy * dy
  }

  /** The distance from a particle to the pointer, through the given square root. */
  function Distance(p: Particle, mouseX: real, mouseY: real, sqrt: real -> real): real {
    sqrt(SquaredDistance(p, mouseX, mouseY))
  }

  /** A near particle (depth over 0.5) within 150 pixels of the pointer is pushed. */
  predicate Repelled(p: Particle, mouseX: real, mouseY: real, sqrt: real -> real) {
    p.depth > 0.5 && Distance(p, mouseX, mouseY, sqrt) < 150.0
  }

  /** Pointer repulsion: move a repelled particle away from the pointer by `force` times its offset. */
  function Repel(p: Particle, mouseX: real, mouseY: real, sqrt: real -> real): Particle {
    if Repelled(p, mouseX, mouseY, sqrt) then
      var dx := mouseX - p.x;
      var dy := mouseY - p.y;
      var force := Force(Distance(p, mouseX, mouseY, sqrt));
      p.(x := p.x - dx * force, y := p.y - dy * force)
    else p
  }

  /**
   * Edge wrap with a 10-pixel margin, as the two `if` statements of the code
   * apply it in sequence: below the margin re-enters past the far edge, past
   * the far edge re-enters below the near one.
   */
  function Wrap(c: real, extent: real): real {
    var c1 := if c < -10.0 then extent + 10.0 else c;
    if c1 > extent + 10.0 then -10.0 else c1
  }

  /** The whole per-particle frame step: drift, repulsion, wrap. */
  function Step(p: Particle, width: real, height: real, mouseX: real, mouseY: real, sqrt: real -> real): Particle {
    var q := Repel(Advance(p), mouseX, mouseY, sqrt);
    q.(x := Wrap(q.x, width), y := Wrap(q.y, height))
  }

  /**
   * On a canvas of non-negative extent, the two sequential tests act as one
   * three-way choice, the result lies within the margin, and wrapping twice is
   * wrapping once.
   */
  lemma WrapProperties(c: real, extent: real)
    requires 0.0 <= extent
    ensures Wrap(c, extent) == if c < -10.0 then extent + 10.0 else if c > extent + 10.0 then -10.0 else c
    ensures -10.0 <= Wrap(c, extent) <= extent + 10.0
    ensures Wrap(Wrap(c, extent), extent) == Wrap(c, extent)
    ensures -10.0 <= c <= extent + 10.0 ==> Wrap(c, extent) == c
  {
  }

  /** A particle 5 pixels past the left margin re-enters 10 pixels past the right edge. */
  lemma WrapExample(width: real)
    requires 0.0 <= width
    ensures Wrap(-15.0, width) == width + 10.0
    ensures Wrap(width + 11.0, width) == -10.0
  {
  }

  /** A frame moves a particle but never changes its size, velocity, opacity or depth. */
  lemma StepKeepsAttributes(p: Particle, width: real, height: real, mouseX: real, mouseY: real, sqrt: real -> real)
    ensures var q := Step(p, width, height, mouseX, mouseY, sqrt);
      q.size == p.size && q.speedX == p.speedX && q.speedY == p.speedY
      && q.opacity == p.opacity && q.depth == p.depth
  {
  }

  /** A particle the pointer does not push moves by exactly its velocity before wrapping. */
  lemma StepWithoutRepulsion(p: Particle, width: real, height: real, mouseX: real, mouseY: real, sqrt: real -> real)
    requires !Repelled(Advance(p), mouseX, mouseY, sqrt)
    ensures Step(p, width, height, mouseX, mouseY, sqrt)
         == p.(x := Wrap(p.x + p.speedX, width), y := Wrap(p.y + p.speedY, height))
  {
  }

  /** Within 150 pixels means a squared distance below 22500. */
  lemma WithinReach(s: real, sqrt: real -> real)
    requires IsSqrt(sqrt) && 0.0 <= s
    ensures sqrt(s) < 150.0 <==> s < 22500.0
  {
    var d := sqrt(s);
    assert 0.0 <= d && d * d == s;
    if d < 150.0 {
      assert d * d <= d * 150.0 < 150.0 * 150.0;
    } else {
      assert 150.0 * 150.0 <= d * 150.0 <= d * d;
    }
  }

  /**
   * With a true square root, repulsion applies exactly to near particles
   * whose squared distance to the pointer is below 22500; it then pushes with
   * a force in (0, 0.02], scaling the vector from the pointer to the particle
   * by `1 + force`, so the particle moves away from the pointer.
   */
  lemma RepulsionPushesAway(p: Particle, mouseX: real, mouseY: real, sqrt: real -> real)
    requires IsSqrt(sqrt)
    ensures var dx := mouseX - p.x; var dy := mouseY - p.y;
      Repelled(p, mouseX, mouseY, sqrt) <==> p.depth > 0.5 && dx * dx + dy * dy < 22500.0
    ensures Repelled(p, mouseX, mouseY, sqrt) ==>
      var force := Force(Distance(p, mouseX, mouseY, sqrt));
      var q := Repel(p, mouseX, mouseY, sqrt);
      && 0.0 < force <= 0.02
      && q.x - mouseX == (p.x - mouseX) * (1.0 + force)
      && q.y - mouseY == (p.y - mouseY) * (1.0 + force)
  {
    var dx := mouseX - p.x;
    var dy := mouseY - p.y;
    assert SquaredDistance(p, mouseX, mouseY) == dx * dx + dy * dy;
    WithinReach(SquaredDistance(p, mouseX, mouseY), sqrt);
  }

  /**
   * The body of the frame loop for one particle, statement by statement as
   * the code runs it.
   */
  method StepParticle(p: Particle, width: real, height: real, mouseX: real, mouseY: real, sqrt: real -> real)
    returns (q: Particle)
    ensures q == Step(p, width, height, mouseX, mouseY, sqrt)
  {
    var x := p.x + p.speedX;
    var y := p.y + p.speedY;
    if p.depth > 0.5 {
      var dx := mouseX - x;
      var dy := mouseY - y;
      var squared := dx * dx + dy * dy;
      assert squared == SquaredDistance(Advance(p), mouseX, mouseY);
      var distance := sqrt(squared);
      if distance < 150.0 {
        var force := (150.0 - distance) / 150.0 * 0.02;
        x := x - dx * force;
        y := y - dy * force;
      }
    }
    if x < -10.0 { x := width + 10.0; }
    if x > width + 10.0 { x := -10.0; }
    if y < -10.0 { y := height + 10.0; }
    if y > height + 10.0 { y := -10.0; }
    q := p.(x := x, y := y);
  }

  // ---------------------------------------------------------------------------
  // The field
  // ---------------------------------------------------------------------------

  /** The canvas size, the particles and the last pointer position in document coordinates. */
  class ParticleField {
    var width: real
    var height: real
    var particles: array<Particle>
    var mouseX: real
    var mouseY: real

    /** A canvas of non-negative size holding one particle per 15000 square pixels. */
    predicate Valid() reads this
    {
      0.0 <= width && 0.0 <= height && particles.Length == Count(width, height)
    }

    /** Mount: the pointer starts at the origin and the first resize builds the field. */
    constructor (innerWidth: real, scrollHeight: real, draws: seq<Draw>)
      requires 0.0 <= innerWidth && 0.0 <= scrollHeight
      requires Count(innerWidth, scrollHeight) <= |draws|
      ensures Valid() && width == innerWidth && height == scrollHeight
      ensures mouseX == 0.0 && mouseY == 0.0
      ensures particles.Length == Count(width, height)
      ensures forall i :: 0 <= i < particles.Length ==> particles[i] == NewParticle(width, height, draws[i])
    {
      width := innerWidth;
      height := scrollHeight;
      mouseX, mouseY := 0.0, 0.0;
      var created := CreateParticles(innerWidth, scrollHeight, draws);
      particles := new Particle[|created|](i requires 0 <= i < |created| => created[i]);
    }

    /** `handleResize`: take the new canvas size and replace the whole field. */
    method Resize(innerWidth: real, scrollHeight: real, draws: seq<Draw>)
      requires 0.0 <= innerWidth && 0.0 <= scrollHeight
      requires Count(innerWidth, scrollHeight) <= |draws|
      modifies this
      ensures Valid() && width == innerWidth && height == scrollHeight
      ensures mouseX == old(mouseX) && mouseY == old(mouseY)
      ensures fresh(particles) && particles.Length == Count(width, height)
      ensures forall i :: 0 <= i < particles.Length ==> particles[i] == NewParticle(width, height, draws[i])
    {
      width := innerWidth;
      height := scrollHeight;
      var created := CreateParticles(innerWidth, scrollHeight, draws);
      particles := new Particle[|created|](i requires 0 <= i < |created| => created[i]);
    }

    /** `handleMouseMove`: record the pointer in document coordinates. */
    method MouseMove(clientX: real, clientY: real, scrollY: real)
      modifies this`mouseX, this`mouseY
      ensures mouseX == clientX && mouseY == clientY + scrollY
      ensures old(Valid()) ==> Valid()
    {
      mouseX, mouseY := clientX, clientY + scrollY;
    }

    /**
     * The update part of one `animate` frame: each particle in turn drifts,
     * is pushed by the pointer and wraps, in place. Afterwards every particle
     * lies within the margin around the canvas.
     */
    method Animate(sqrt: real -> real)
      modifies particles
      ensures forall i :: 0 <= i < particles.Length ==>
        particles[i] == Step(old(particles[i]), width, height, mouseX, mouseY, sqrt)
      ensures old(Valid()) ==> Valid()
      ensures Valid() ==> forall i :: 0 <= i < particles.Length ==>
        -10.0 <= particles[i].x <= width + 10.0 && -10.0 <= particles[i].y <= height + 10.0
    {
      var i := 0;
      while i < particles.Length
        invariant 0 <= i <= particles.Length
        invariant forall j :: 0 <= j < i ==>
          particles[j] == Step(old(particles[j]), width, height, mouseX, mouseY, sqrt)
        invariant forall j :: i <= j < particles.Length ==> particles[j] == old(particles[j])
      {
        particles[i] := StepParticle(particles[i], width, height, mouseX, mouseY, sqrt);
        i := i + 1;
      }
      if Valid() {
        forall j | 0 <= j < particles.Length
          ensures -10.0 <= particles[j].x <= width + 10.0 && -10.0 <= particles[j].y <= height + 10.0
        {
          var q := Repel(Advance(old(particles[j])), mouseX, mouseY, sqrt);
          WrapProperties(q.x, width);
          WrapProperties(q.y, height);
        }
      }
    }
  }
}
