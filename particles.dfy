/** A particle of the swarm: force accumulation, velocity-limited Euler
    integration and toroidal wrap-around at the viewport edges. */
module Particles {
  import opened Vectors

  const MaxSpeed: real := 2.4
  const BaseFlowStrength: real := 0.05

  /** The motion state of a particle: position, velocity and the acceleration accumulator. */
  datatype Motion = Motion(pos: Vector2, vel: Vector2, acc: Vector2)

  /** One axis of wrapAround: the low-edge guard, then the high-edge guard on its result. */
  function WrapAxis(c: real, size: real, dim: real): real {
    var low := if c < -size then dim + size else c;
    if low > dim + size then -size else low
  }

  function WrapPos(p: Vector2, size: real, width: real, height: real): Vector2 {
    Vector2(WrapAxis(p.x, size, width), WrapAxis(p.y, size, height))
  }

  /** `p5.Vector.fromAngle(angle).mult(baseFlowStrength)`, the noise-chosen
      direction (cos angle, sin angle) being given as `dir`. */
  function Flow(dir: Vector2): Vector2 {
    Mult(dir, BaseFlowStrength)
  }

  /** What Particle.update does to the motion state. */
  function Integrate(m: Motion, size: real, width: real, height: real, sqrt: real -> real): Motion {
    var vel := Limit(Add(m.vel, m.acc), MaxSpeed, sqrt);
    Motion(WrapPos(Add(m.pos, vel), size, width, height), vel, Mult(m.acc, 0.0))
  }

  /** One frame for one particle: applyForce(force), applyFlow, update. */
  function Step(m: Motion, size: real, force: Vector2, dir: Vector2, width: real, height: real,
                sqrt: real -> real): Motion
  {
    Integrate(Motion(m.pos, m.vel, Add(Add(m.acc, force), Flow(dir))), size, width, height, sqrt)
  }

  predicate InBounds(p: Vector2, size: real, width: real, height: real) {
    -size <= p.x <= width + size && -size <= p.y <= height + size
  }

  // ---------------------------------------------------------------------
  // Wrap-around

  /** Each axis ends up in [-size, dim + size]; a coordinate already there is
      left alone, one past an edge re-enters at the opposite edge. */
  lemma WrapAxisSpec(c: real, size: real, dim: real)
    requires 0.0 <= size && 0.0 <= dim
    ensures -size <= WrapAxis(c, size, dim) <= dim + size
    ensures -size <= c <= dim + size ==> WrapAxis(c, size, dim) == c
    ensures c < -size ==> WrapAxis(c, size, dim) == dim + size
    ensures c > dim + size ==> WrapAxis(c, size, dim) == -size
  {
  }

  /** Wrapping keeps a particle in its padded viewport and is idempotent. */
  lemma WrapPosSpec(p: Vector2, size: real, width: real, height: real)
    requires 0.0 <= size && 0.0 <= width && 0.0 <= height
    ensures InBounds(WrapPos(p, size, width, height), size, width, height)
    ensures InBounds(p, size, width, height) ==> WrapPos(p, size, width, height) == p
    ensures WrapPos(WrapPos(p, size, width, height), size, width, height) == WrapPos(p, size, width, height)
  {
    WrapAxisSpec(p.x, size, width);
    WrapAxisSpec(p.y, size, height);
    var q := WrapPos(p, size, width, height);
    WrapAxisSpec(q.x, size, width);
    WrapAxisSpec(q.y, size, height);
  }

  /** A wrap across the low edge moves a coordinate by more than the viewport
      dimension plus twice the particle size. */
  lemma WrapJump(c: real, size: real, dim: real)
    requires 0.0 <= size && 0.0 <= dim
    requires c < -size
    ensures WrapAxis(c, size, dim) - c > dim + 2.0 * size
  {
  }

  // ---------------------------------------------------------------------
  // Integration

  /** After update the accumulator is zero, the speed is at most 2.4, the
      position is the old position plus the new velocity (wrapped), and a
      velocity already under the limit is kept as it is. */
  lemma {:induction false} IntegrateSpec(m: Motion, size: real, width: real, height: real, sqrt: real -> real)
    requires IsSqrt(sqrt)
    requires 0.0 <= size && 0.0 <= width && 0.0 <= height
    ensures var r := Integrate(m, size, width, height, sqrt);
      && r.acc == Zero
      && MagSq(r.vel) <= MaxSpeed * MaxSpeed
      && (MagSq(Add(m.vel, m.acc)) <= MaxSpeed * MaxSpeed ==> r.vel == Add(m.vel, m.acc))
      && r.pos == WrapPos(Add(m.pos, r.vel), size, width, height)
      && InBounds(r.pos, size, width, height)
      && (InBounds(Add(m.pos, r.vel), size, width, height) ==> r.pos == Add(m.pos, r.vel))
  {
    var vel := Limit(Add(m.vel, m.acc), MaxSpeed, sqrt);
    LimitBound(Add(m.vel, m.acc), MaxSpeed, sqrt);
    WrapPosSpec(Add(m.pos, vel), size, width, height);
  }

  /** One frame of a particle at rest in its accumulator: the new velocity is
      the old one plus steering and flow, limited to 2.4, and the invariants of
      update hold. */
  lemma {:induction false} StepSpec(m: Motion, size: real, force: Vector2, dir: Vector2, width: real, height: real,
                                    sqrt: real -> real)
    requires IsSqrt(sqrt)
    requires 0.0 <= size && 0.0 <= width && 0.0 <= height
    requires m.acc == Zero
    ensures var r := Step(m, size, force, dir, width, height, sqrt);
      && r.acc == Zero
      && r.vel == Limit(Add(Add(m.vel, force), Flow(dir)), MaxSpeed, sqrt)
      && MagSq(r.vel) <= MaxSpeed * MaxSpeed
      && InBounds(r.pos, size, width, height)
      && r.pos == WrapPos(Add(m.pos, r.vel), size, width, height)
  {
    var acc := Add(Add(m.acc, force), Flow(dir));
    assert Add(m.vel, acc) == Add(Add(m.vel, force), Flow(dir));
    IntegrateSpec(Motion(m.pos, m.vel, acc), size, width, height, sqrt);
  }

  /** The flow contribution has magnitude 0.05 for a unit direction. */
  lemma FlowMagnitude(dir: Vector2)
    requires MagSq(dir) == 1.0
    ensures MagSq(Flow(dir)) == BaseFlowStrength * BaseFlowStrength
  {
    MagSqMult(dir, BaseFlowStrength);
  }

  class Particle {
    var pos: Vector2
    var vel: Vector2
    var acc: Vector2
    const size: real

    /** `random(6, 16)` draws the size from [6, 16). */
    predicate Valid() {
      6.0 <= size < 16.0
    }

    function State(): Motion
      reads this
    {
      Motion(pos, vel, acc)
    }

    /** The random draws of the source's constructor are given as arguments. */
    constructor (pos: Vector2, vel: Vector2, size: real)
      requires 6.0 <= size < 16.0
      ensures Valid()
      ensures State() == Motion(pos, vel, Zero) && this.size == size
    {
      this.pos := pos;
      this.vel := vel;
      this.acc := Zero;
      this.size := size;
    }

    method ApplyForce(force: Vector2)
      modifies this
      ensures State() == Motion(old(pos), old(vel), Add(old(acc), force))
    {
      acc := Add(acc, force);
    }

    method ApplyFlow(dir: Vector2)
      modifies this
      ensures State() == Motion(old(pos), old(vel), Add(old(acc), Flow(dir)))
    {
      acc := Add(acc, Flow(dir));
    }

    method Update(width: real, height: real, sqrt: real -> real)
      requires Valid() && IsSqrt(sqrt)
      requires 0.0 <= width && 0.0 <= height
      modifies this
      ensures State() == Integrate(old(State()), size, width, height, sqrt)
      ensures acc == Zero && MagSq(vel) <= MaxSpeed * MaxSpeed
      ensures InBounds(pos, size, width, height)
    {
      vel := Add(vel, acc);
      vel := Limit(vel, MaxSpeed, sqrt);
      pos := Add(pos, vel);
      acc := Mult(acc, 0.0);
      WrapAround(width, height);
      IntegrateSpec(old(State()), size, width, height, sqrt);
    }

    method WrapAround(width: real, height: real)
      modifies this
      ensures State() == Motion(WrapPos(old(pos), size, width, height), old(vel), old(acc))
    {
      if pos.x < -size { pos := pos.(x := width + size); }
      if pos.x > width + size { pos := pos.(x := -size); }
      if pos.y < -size { pos := pos.(y := height + size); }
      if pos.y > height + size { pos := pos.(y := -size); }
    }
  }
}
