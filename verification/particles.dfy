/** One particle of the hero-canvas background: how it is created from the
    random draws, and how one animation frame moves it and bounces it off
    the canvas edges. */
module Particles {

  /** An `rgba(r, g, b, alpha)` fill colour. */
  datatype Rgba = Rgba(r: nat, g: nat, b: nat, alpha: real)

  /** The fields of a particle object. `size` and `color` are fixed when the
      particle is created; the other four change every frame. */
  datatype Particle = Particle(x: real, y: real, size: real, speedX: real, speedY: real, color: Rgba)

  /** The six `Math.random()` results the particle constructor consumes,
      in the order it consumes them. */
  datatype Draw = Draw(x: real, y: real, size: real, speedX: real, speedY: real, alpha: real)

  /** `Math.random()` returns a value in [0, 1). */
  predicate IsUnit(r: real)
  {
    0.0 <= r < 1.0
  }

  predicate IsDraw(d: Draw)
  {
    IsUnit(d.x) && IsUnit(d.y) && IsUnit(d.size) && IsUnit(d.speedX) && IsUnit(d.speedY) && IsUnit(d.alpha)
  }

  function Abs(r: real): (a: real)
    ensures 0.0 <= a && (a == r || a == -r)
  {
    if r < 0.0 then -r else r
  }

  /** The two palettes: blue-400-ish on a dark page, blue-500 on a light one. */
  function ThemeColor(dark: bool, alpha: real): (c: Rgba)
    ensures c.alpha == alpha
    ensures dark ==> (c.r, c.g, c.b) == (78, 154, 241)
    ensures !dark ==> (c.r, c.g, c.b) == (59, 130, 246)
  {
    if dark then Rgba(78, 154, 241, alpha) else Rgba(59, 130, 246, alpha)
  }

  /** `Math.random() * extent`: a random coordinate on the canvas. */
  function Scale(u: real, extent: nat): (r: real)
    requires IsUnit(u)
    ensures 0.0 <= r <= extent as real
    ensures 0 < extent ==> r < extent as real
  {
    var e := extent as real;
    assert e - u * e == (1.0 - u) * e;
    assert 0.0 <= (1.0 - u) * e;
    assert 0 < extent ==> 0.0 < (1.0 - u) * e;
    u * e
  }

  /** The `Particle` constructor: a random position on the canvas, a radius in
      [0.5, 2.5), a speed in [-0.25, 0.25) on each axis and an alpha in
      [0.1, 0.6), coloured for the theme the body has at creation time. */
  function NewParticle(d: Draw, width: nat, height: nat, dark: bool): (p: Particle)
    requires IsDraw(d)
    ensures 0.0 <= p.x <= width as real && 0.0 <= p.y <= height as real
    ensures 0 < width ==> p.x < width as real
    ensures 0 < height ==> p.y < height as real
    ensures 0.5 <= p.size < 2.5
    ensures -0.25 <= p.speedX < 0.25 && -0.25 <= p.speedY < 0.25
    ensures 0.1 <= p.color.alpha < 0.6
    ensures p.color == ThemeColor(dark, p.color.alpha)
  {
    Particle(Scale(d.x, width), Scale(d.y, height),
             d.size * 2.0 + 0.5,
             d.speedX * 0.5 - 0.25, d.speedY * 0.5 - 0.25,
             ThemeColor(dark, d.alpha * 0.5 + 0.1))
  }

  /** The edge rule for one axis, in the order the two checks run: past the far
      edge the speed is forced negative, before the near edge it is forced
      positive (sign forcing, not negation). */
  function Bounce(pos: real, speed: real, extent: nat): (s: real)
    ensures Abs(s) == Abs(speed)
    ensures pos > extent as real ==> s <= 0.0
    ensures pos < 0.0 ==> s >= 0.0
    ensures 0.0 <= pos <= extent as real ==> s == speed
  {
    var afterFar := if pos > extent as real then -Abs(speed) else speed;
    if pos < 0.0 then Abs(afterFar) else afterFar
  }

  /** `Particle.update` without the pointer term: integrate the position by
      the speed, then apply the edge rule to the new position. */
  function Step(p: Particle, width: nat, height: nat): (q: Particle)
    ensures q.x == p.x + p.speedX && q.y == p.y + p.speedY
    ensures q.size == p.size && q.color == p.color
    ensures Abs(q.speedX) == Abs(p.speedX) && Abs(q.speedY) == Abs(p.speedY)
    ensures q.x > width as real ==> q.speedX <= 0.0
    ensures q.x < 0.0 ==> q.speedX >= 0.0
    ensures q.y > height as real ==> q.speedY <= 0.0
    ensures q.y < 0.0 ==> q.speedY >= 0.0
    ensures 0.0 <= q.x <= width as real ==> q.speedX == p.speedX
    ensures 0.0 <= q.y <= height as real ==> q.speedY == p.speedY
  {
    var x := p.x + p.speedX;
    var y := p.y + p.speedY;
    p.(x := x, y := y, speedX := Bounce(x, p.speedX, width), speedY := Bounce(y, p.speedY, height))
  }

  /** The per-frame update as the script runs it: the fields are changed one
      statement at a time. */
  method Update(p: Particle, width: nat, height: nat) returns (q: Particle)
    ensures q == Step(p, width, height)
  {
    var x, y, speedX, speedY := p.x, p.y, p.speedX, p.speedY;
    x := x + speedX;
    y := y + speedY;
    if x > width as real { speedX := -Abs(speedX); }
    if x < 0.0 { speedX := Abs(speedX); }
    if y > height as real { speedY := -Abs(speedY); }
    if y < 0.0 { speedY := Abs(speedY); }
    q := p.(x := x, y := y, speedX := speedX, speedY := speedY);
  }

  /** `n` frames of `Step` on a canvas of fixed size. */
  function StepN(p: Particle, width: nat, height: nat, n: nat): Particle
    decreases n
  {
    if n == 0 then p else StepN(Step(p, width, height), width, height, n - 1)
  }

  /** The soft boundary on one axis: the position is at most one frame's
      speed outside [0, extent], and outside that interval the speed already
      points back inside. */
  predicate AxisSoftBounded(pos: real, speed: real, extent: nat)
  {
    && -Abs(speed) <= pos <= extent as real + Abs(speed)
    && (pos > extent as real ==> speed <= 0.0)
    && (pos < 0.0 ==> speed >= 0.0)
  }

  predicate SoftBounded(p: Particle, width: nat, height: nat)
  {
    AxisSoftBounded(p.x, p.speedX, width) && AxisSoftBounded(p.y, p.speedY, height)
  }

  /** A particle placed anywhere on the canvas is soft-bounded. */
  lemma OnCanvasIsSoftBounded(p: Particle, width: nat, height: nat)
    requires 0.0 <= p.x <= width as real && 0.0 <= p.y <= height as real
    ensures SoftBounded(p, width, height)
  {
  }

  lemma AxisStepKeepsSoftBound(pos: real, speed: real, extent: nat)
    requires AxisSoftBounded(pos, speed, extent)
    ensures AxisSoftBounded(pos + speed, Bounce(pos + speed, speed, extent), extent)
  {
    var s := Bounce(pos + speed, speed, extent);
    assert Abs(s) == Abs(speed);
    if pos > extent as real {
      assert speed == -Abs(speed);
    } else if pos < 0.0 {
      assert speed == Abs(speed);
    }
  }

  /** One frame keeps a particle soft-bounded. */
  lemma StepKeepsSoftBound(p: Particle, width: nat, height: nat)
    requires SoftBounded(p, width, height)
    ensures SoftBounded(Step(p, width, height), width, height)
  {
    AxisStepKeepsSoftBound(p.x, p.speedX, width);
    AxisStepKeepsSoftBound(p.y, p.speedY, height);
  }

  /** However many frames run on a canvas that keeps its size, a soft-bounded
      particle never drifts more than one frame's speed off the canvas, and
      its speed magnitude on each axis never changes. */
  lemma {:induction false} SoftBoundAfterFrames(p: Particle, width: nat, height: nat, n: nat)
    requires SoftBounded(p, width, height)
    ensures SoftBounded(StepN(p, width, height, n), width, height)
    ensures Abs(StepN(p, width, height, n).speedX) == Abs(p.speedX)
    ensures Abs(StepN(p, width, height, n).speedY) == Abs(p.speedY)
    decreases n
  {
    if n > 0 {
      StepKeepsSoftBound(p, width, height);
      SoftBoundAfterFrames(Step(p, width, height), width, height, n - 1);
    }
  }
}
