/** The sketch's process-wide state and its per-event and per-frame
    operations: setup, the outcome of the motion-permission request, the
    device-orientation handler and one animation frame. */
module Sketch {
  import opened Vectors
  import opened Steering
  import opened Particles

  const ParticleCount: nat := 140

  /** What the platform offers: no DeviceOrientationEvent at all, orientation
      events without a permission gate, or a gate behind requestPermission. */
  datatype Capability = NoSensor | Ungated | Gated

  /** How the permission request settles: 'granted', any other response, or a rejected promise. */
  datatype PermissionOutcome = Granted | Denied | Failed

  /** The random draws for one particle: position, initial velocity and size. */
  datatype Seed = Seed(pos: Vector2, vel: Vector2, size: real)

  predicate Distinct(ps: seq<Particle>) {
    forall i, j :: 0 <= i < j < |ps| ==> ps[i] != ps[j]
  }

  /** The body of draw()'s particles.forEach callback, drawing left out. */
  method StepParticle(p: Particle, force: Vector2, dir: Vector2, width: real, height: real, sqrt: real -> real)
    requires p.Valid() && IsSqrt(sqrt)
    requires 0.0 <= width && 0.0 <= height
    modifies p
    ensures p.State() == Step(old(p.State()), p.size, force, dir, width, height, sqrt)
  {
    p.ApplyForce(force);
    p.ApplyFlow(dir);
    p.Update(width, height, sqrt);
  }

  class SketchState {
    var smoothedForce: Vector2
    var orientationVector: Vector2
    var lastOrientationTime: int
    var permissionGranted: bool
    var needsPermission: bool
    const particles: seq<Particle>

    /** The pool has a fixed size and no aliasing, every particle begins a
        frame with an empty accumulator, and the stored tilt is normalised. */
    ghost predicate Valid()
      reads this, particles
    {
      && |particles| == ParticleCount
      && Distinct(particles)
      && (forall i :: 0 <= i < |particles| ==> particles[i].Valid() && particles[i].acc == Zero)
      && -1.0 <= orientationVector.x <= 1.0
      && -1.0 <= orientationVector.y <= 1.0
    }

    /** setup(): the particle pool and the permission flags; listener and DOM wiring are left out. */
    constructor (capability: Capability, seeds: seq<Seed>)
      requires |seeds| == ParticleCount
      requires forall i :: 0 <= i < |seeds| ==> 6.0 <= seeds[i].size < 16.0
      ensures Valid()
      ensures smoothedForce == Zero && orientationVector == Zero && lastOrientationTime == 0
      ensures needsPermission <==> capability == Gated
      ensures permissionGranted <==> capability == Ungated
      ensures forall i :: 0 <= i < |particles| ==>
        fresh(particles[i]) &&
        particles[i].State() == Motion(seeds[i].pos, seeds[i].vel, Zero) && particles[i].size == seeds[i].size
    {
      var ps: seq<Particle> := [];
      var i := 0;
      while i < ParticleCount
        invariant 0 <= i <= ParticleCount && |ps| == i
        invariant Distinct(ps)
        invariant forall k :: 0 <= k < i ==>
          fresh(ps[k]) && ps[k].Valid() &&
          ps[k].State() == Motion(seeds[k].pos, seeds[k].vel, Zero) && ps[k].size == seeds[k].size
      {
        var p := new Particle(seeds[i].pos, seeds[i].vel, seeds[i].size);
        ps := ps + [p];
        i := i + 1;
      }
      particles := ps;
      smoothedForce := Zero;
      orientationVector := Zero;
      lastOrientationTime := 0;
      needsPermission := capability == Gated;
      permissionGranted := capability == Ungated;
    }

    /** The settled outcome of requestMotionAccess: only a gated platform
        reacts, and only a grant enables orientation steering. */
    method RequestMotionAccess(outcome: PermissionOutcome)
      requires Valid()
      modifies this`permissionGranted
      ensures Valid()
      ensures permissionGranted == if needsPermission then outcome == Granted else old(permissionGranted)
    {
      if !needsPermission {
        return;
      }
      match outcome {
        case Granted => permissionGranted := true;
        case Denied => permissionGranted := false;
        case Failed => permissionGranted := false;
      }
    }

    /** handleOrientation: ignored while a permission gate is closed, otherwise
        stores the normalised tilt (gamma, beta) and the time of the event. */
    method HandleOrientation(gamma: Option<real>, beta: Option<real>, now: int)
      requires Valid()
      modifies this`orientationVector, this`lastOrientationTime
      ensures Valid()
      ensures needsPermission && !permissionGranted ==>
        orientationVector == old(orientationVector) && lastOrientationTime == old(lastOrientationTime)
      ensures !(needsPermission && !permissionGranted) ==>
        orientationVector == Vector2(Tilt(gamma), Tilt(beta)) && lastOrientationTime == now
    {
      if needsPermission && !permissionGranted {
        return;
      }
      var normalizedX := Tilt(gamma);
      var normalizedY := Tilt(beta);
      orientationVector := Vector2(normalizedX, normalizedY);
      lastOrientationTime := now;
    }

    /** The target force draw() would choose now. */
    function CurrentTarget(now: int, pointer: PointerInput, width: real, height: real, wave: Vector2,
                           sqrt: real -> real): Target
      reads this
    {
      ResolveTarget(permissionGranted, needsPermission, orientationVector, lastOrientationTime, now,
                    pointer, width, height, wave, sqrt)
    }

    /** draw(): resolve the target, smooth towards it, then give every particle
        the smoothed force and its flow and integrate it. `flowDirs[i]` is the
        noise-chosen direction of particle i; `wave` is the ambient (sin, cos) pair. */
    method Draw(now: int, pointer: PointerInput, width: real, height: real, wave: Vector2,
                flowDirs: seq<Vector2>, sqrt: real -> real) returns (mode: ControlMode)
      requires Valid() && IsSqrt(sqrt)
      requires 0.0 <= width && 0.0 <= height
      requires |flowDirs| == |particles|
      modifies this`smoothedForce, particles
      ensures Valid()
      ensures mode == old(CurrentTarget(now, pointer, width, height, wave, sqrt)).mode
      ensures smoothedForce == Smooth(old(smoothedForce), old(CurrentTarget(now, pointer, width, height, wave, sqrt)).force)
      ensures forall i :: 0 <= i < |particles| ==>
        particles[i].State() == Step(old(particles[i].State()), particles[i].size, smoothedForce, flowDirs[i],
                                     width, height, sqrt)
      ensures forall i :: 0 <= i < |particles| ==>
        MagSq(particles[i].vel) <= MaxSpeed * MaxSpeed && InBounds(particles[i].pos, particles[i].size, width, height)
    {
      var target := CurrentTarget(now, pointer, width, height, wave, sqrt);
      mode := target.mode;
      smoothedForce := Smooth(smoothedForce, target.force);

      var n := |particles|;
      for i := 0 to n
        invariant smoothedForce == Smooth(old(smoothedForce), target.force)
        invariant forall k :: 0 <= k < i ==>
          particles[k].State() == Step(old(particles[k].State()), particles[k].size, smoothedForce, flowDirs[k],
                                       width, height, sqrt)
        invariant forall k :: i <= k < n ==> particles[k].State() == old(particles[k].State())
      {
        StepParticle(particles[i], smoothedForce, flowDirs[i], width, height, sqrt);
      }

      forall i | 0 <= i < n
        ensures particles[i].acc == Zero
        ensures MagSq(particles[i].vel) <= MaxSpeed * MaxSpeed
        ensures InBounds(particles[i].pos, particles[i].size, width, height)
      {
        StepSpec(old(particles[i].State()), particles[i].size, smoothedForce, flowDirs[i], width, height, sqrt);
      }
    }
  }
}
