/** Steering-force resolution of the sketch: tilt normalisation, the 900 ms
    liveness window of an orientation sample, the per-frame choice of a
    control source, and the exponential smoothing of the steering force. */
module Steering {
  import opened Vectors

  const TiltRange: real := 45.0
  const OrientationWindowMs: int := 900
  const OrientationGain: real := 0.55
  const PointerGain: real := 0.65
  const AmbientGain: real := 0.18
  const MotionSmoothing: real := 0.08

  /** A field of a device-orientation event, which may be null or undefined. */
  datatype Option<T> = None | Some(value: T)

  /** `constrain(angle ?? 0, -45, 45) / 45`. */
  function Tilt(angle: Option<real>): (r: real)
    ensures -1.0 <= r <= 1.0
    ensures angle.None? ==> r == 0.0
    ensures angle.Some? && -TiltRange <= angle.value <= TiltRange ==> r * TiltRange == angle.value
    ensures angle.Some? && angle.value >= TiltRange ==> r == 1.0
    ensures angle.Some? && angle.value <= -TiltRange ==> r == -1.0
  {
    var a := match angle case Some(a) => a case None => 0.0;
    Constrain(a, -TiltRange, TiltRange) / TiltRange
  }

  /** Steering by tilt is live while permission is granted and the last sample is under 900 ms old. */
  predicate OrientationActive(granted: bool, lastTime: int, now: int) {
    granted && now - lastTime < OrientationWindowMs
  }

  datatype ControlMode = Orientation | Pointer | Idle

  /** A JavaScript number as p5 reports a pointer coordinate: finite, or NaN/Infinity. */
  datatype JsNumber = Finite(value: real) | NonFinite

  /** p5's `touches`, `mouseIsPressed`, `mouseX` and `mouseY` for one frame
      (an undefined `touches` is a count of zero). */
  datatype PointerInput = PointerInput(touchCount: nat, mouseIsPressed: bool, mouseX: JsNumber, mouseY: JsNumber)

  datatype Target = Target(mode: ControlMode, force: Vector2)

  /** `Math.max(min(width, height) / 2, 1)`. */
  function PointerScale(width: real, height: real): (r: real)
    ensures r >= 1.0
    ensures r >= Min(width, height) / 2.0
    ensures r == 1.0 || r == Min(width, height) / 2.0
  {
    Max(Min(width, height) / 2.0, 1.0)
  }

  /** Pointer displacement from the viewport centre, divided by the scale,
      limited to length 1 and multiplied by the pointer gain. */
  function PointerForce(mouseX: real, mouseY: real, width: real, height: real, sqrt: real -> real): Vector2 {
    var pointer := Vector2(mouseX - width / 2.0, mouseY - height / 2.0);
    Mult(Limit(Div(pointer, PointerScale(width, height)), 1.0, sqrt), PointerGain)
  }

  /** The target force of one frame: live orientation first, then pointer or
      touch, then idle. `wave` is (sin(frameCount * 0.01), cos(frameCount * 0.013)). */
  function ResolveTarget(granted: bool, needsPermission: bool, orientation: Vector2, lastTime: int, now: int,
                         pointer: PointerInput, width: real, height: real, wave: Vector2,
                         sqrt: real -> real): Target
  {
    if OrientationActive(granted, lastTime, now) then
      Target(Orientation, Mult(Vector2(orientation.x, -orientation.y), OrientationGain))
    else if pointer.touchCount > 0 || pointer.mouseIsPressed then
      match (pointer.mouseX, pointer.mouseY)
      case (Finite(x), Finite(y)) => Target(Pointer, PointerForce(x, y, width, height, sqrt))
      case _ => Target(Pointer, Zero)
    else if needsPermission then
      Target(Idle, Zero)
    else
      Target(Idle, Mult(wave, AmbientGain))
  }

  /** One frame of smoothing: `smoothedForce.lerp(targetForce, 0.08)`. */
  function Smooth(smoothed: Vector2, target: Vector2): Vector2 {
    Lerp(smoothed, target, MotionSmoothing)
  }

  /** The smoothed force after n frames with the same target. */
  function SmoothFor(smoothed: Vector2, target: Vector2, n: nat): Vector2 {
    if n == 0 then smoothed else Smooth(SmoothFor(smoothed, target, n - 1), target)
  }

  function Pow(b: real, n: nat): real {
    if n == 0 then 1.0 else b * Pow(b, n - 1)
  }

  // ---------------------------------------------------------------------
  // Orientation liveness

  /** A sample taken at t0 steers at t0 + 899 and no longer from t0 + 900 on;
      without permission it never steers. */
  lemma OrientationWindow(t0: int, elapsed: int)
    ensures OrientationActive(true, t0, t0 + elapsed) <==> elapsed < 900
    ensures OrientationActive(true, t0, t0 + 899)
    ensures elapsed >= 900 ==> !OrientationActive(true, t0, t0 + elapsed)
    ensures !OrientationActive(false, t0, t0 + elapsed)
  {
  }

  // ---------------------------------------------------------------------
  // Control-source priority

  /** The mode is decided by the fixed priority order, and a live orientation
      sample outranks any pointer or touch state. */
  lemma ResolvePriority(granted: bool, needsPermission: bool, o: Vector2, lastTime: int, now: int,
                        p: PointerInput, q: PointerInput, width: real, height: real, wave: Vector2,
                        sqrt: real -> real)
    ensures var t := ResolveTarget(granted, needsPermission, o, lastTime, now, p, width, height, wave, sqrt);
      && (t.mode == Orientation <==> OrientationActive(granted, lastTime, now))
      && (t.mode == Pointer <==>
            !OrientationActive(granted, lastTime, now) && (p.touchCount > 0 || p.mouseIsPressed))
      && (t.mode == Idle <==>
            !OrientationActive(granted, lastTime, now) && p.touchCount == 0 && !p.mouseIsPressed)
    ensures OrientationActive(granted, lastTime, now) ==>
      ResolveTarget(granted, needsPermission, o, lastTime, now, p, width, height, wave, sqrt).force
        == Vector2(OrientationGain * o.x, -OrientationGain * o.y)
      && ResolveTarget(granted, needsPermission, o, lastTime, now, p, width, height, wave, sqrt)
        == ResolveTarget(granted, needsPermission, o, lastTime, now, q, width, height, wave, sqrt)
  {
  }

  /** With a normalised tilt the orientation target stays within the gain on each axis. */
  lemma OrientationTargetBound(granted: bool, needsPermission: bool, o: Vector2, lastTime: int, now: int,
                               p: PointerInput, width: real, height: real, wave: Vector2, sqrt: real -> real)
    requires -1.0 <= o.x <= 1.0 && -1.0 <= o.y <= 1.0
    requires OrientationActive(granted, lastTime, now)
    ensures var f := ResolveTarget(granted, needsPermission, o, lastTime, now, p, width, height, wave, sqrt).force;
      -OrientationGain <= f.x <= OrientationGain && -OrientationGain <= f.y <= OrientationGain
  {
  }

  /** In the pointer branch the target is never longer than the pointer gain. */
  lemma {:induction false} PointerTargetBound(granted: bool, needsPermission: bool, o: Vector2, lastTime: int, now: int,
                                              p: PointerInput, width: real, height: real, wave: Vector2,
                                              sqrt: real -> real)
    requires IsSqrt(sqrt)
    requires ResolveTarget(granted, needsPermission, o, lastTime, now, p, width, height, wave, sqrt).mode == Pointer
    ensures MagSq(ResolveTarget(granted, needsPermission, o, lastTime, now, p, width, height, wave, sqrt).force)
      <= PointerGain * PointerGain
  {
    if p.mouseX.Finite? && p.mouseY.Finite? {
      var scaled := Div(Vector2(p.mouseX.value - width / 2.0, p.mouseY.value - height / 2.0),
                        PointerScale(width, height));
      LimitBound(scaled, 1.0, sqrt);
      MagSqMult(Limit(scaled, 1.0, sqrt), PointerGain);
      SquareNonNegative(PointerGain);
    }
  }

  /** A non-finite pointer coordinate steers with the zero vector. */
  lemma PointerNonFinite(granted: bool, needsPermission: bool, o: Vector2, lastTime: int, now: int,
                         p: PointerInput, width: real, height: real, wave: Vector2, sqrt: real -> real)
    requires !OrientationActive(granted, lastTime, now)
    requires p.touchCount > 0 || p.mouseIsPressed
    requires p.mouseX.NonFinite? || p.mouseY.NonFinite?
    ensures ResolveTarget(granted, needsPermission, o, lastTime, now, p, width, height, wave, sqrt)
      == Target(Pointer, Zero)
  {
  }

  /** A pointer exactly at the viewport centre steers with the zero vector. */
  lemma PointerAtCentre(granted: bool, needsPermission: bool, o: Vector2, lastTime: int, now: int,
                        p: PointerInput, width: real, height: real, wave: Vector2, sqrt: real -> real)
    requires !OrientationActive(granted, lastTime, now)
    requires p.touchCount > 0 || p.mouseIsPressed
    requires p.mouseX == Finite(width / 2.0) && p.mouseY == Finite(height / 2.0)
    ensures ResolveTarget(granted, needsPermission, o, lastTime, now, p, width, height, wave, sqrt)
      == Target(Pointer, Zero)
  {
  }

  /** Idle: nothing on a platform with a permission gate, whatever its
      outcome, otherwise the ambient wave scaled to at most 0.18 on each axis. */
  lemma IdleTarget(granted: bool, needsPermission: bool, o: Vector2, lastTime: int, now: int,
                   p: PointerInput, width: real, height: real, wave: Vector2, sqrt: real -> real)
    requires -1.0 <= wave.x <= 1.0 && -1.0 <= wave.y <= 1.0
    requires ResolveTarget(granted, needsPermission, o, lastTime, now, p, width, height, wave, sqrt).mode == Idle
    ensures var f := ResolveTarget(granted, needsPermission, o, lastTime, now, p, width, height, wave, sqrt).force;
      && (needsPermission ==> f == Zero)
      && (!needsPermission ==> f == Vector2(AmbientGain * wave.x, AmbientGain * wave.y))
      && -AmbientGain <= f.x <= AmbientGain && -AmbientGain <= f.y <= AmbientGain
  {
  }

  /** At frame 0 (sin 0 = 0, cos 0 = 1) the ambient target is (0, 0.18), not the zero vector. */
  lemma IdleAtFrameZero(granted: bool, o: Vector2, lastTime: int, now: int,
                        p: PointerInput, width: real, height: real, sqrt: real -> real)
    requires !OrientationActive(granted, lastTime, now)
    requires p.touchCount == 0 && !p.mouseIsPressed
    ensures ResolveTarget(granted, false, o, lastTime, now, p, width, height, Vector2(0.0, 1.0), sqrt)
      == Target(Idle, Vector2(0.0, AmbientGain))
  {
  }

  /** Scenarios of the tilt normalisation: full right tilt, out-of-range tilt, missing reading. */
  lemma TiltScenarios()
    ensures Tilt(Some(45.0)) == 1.0
    ensures Tilt(Some(-90.0)) == -1.0
    ensures Tilt(Some(22.5)) == 0.5
    ensures Tilt(None) == 0.0
  {
  }

  // ---------------------------------------------------------------------
  // Smoothing

  /** One frame moves the smoothed force 8% of the way: the remaining
      deviation is 0.92 of the previous one, so the distance never grows. */
  lemma {:induction false} SmoothContracts(smoothed: Vector2, target: Vector2)
    ensures Sub(Smooth(smoothed, target), target) == Mult(Sub(smoothed, target), 1.0 - MotionSmoothing)
    ensures MagSq(Sub(Smooth(smoothed, target), target)) <= MagSq(Sub(smoothed, target))
  {
    var d := Sub(smoothed, target);
    MagSqMult(d, 0.92);
    MagSqNonNegative(d);
  }

  lemma {:induction false} PowBounds(b: real, n: nat)
    requires 0.0 <= b <= 1.0
    ensures 0.0 <= Pow(b, n) <= 1.0
    ensures Pow(b, n + 1) <= Pow(b, n)
  {
    if n > 0 {
      PowBounds(b, n - 1);
      ShrinkingFactor(b, Pow(b, n - 1));
    }
    ShrinkingFactor(b, Pow(b, n));
  }

  lemma ShrinkingFactor(b: real, p: real)
    requires 0.0 <= b <= 1.0 && 0.0 <= p
    ensures 0.0 <= b * p <= p
  {
  }

  lemma {:induction false} PowAdd(b: real, m: nat, n: nat)
    ensures Pow(b, m + n) == Pow(b, m) * Pow(b, n)
  {
    if m > 0 {
      PowAdd(b, m - 1, n);
      assert b * (Pow(b, m - 1) * Pow(b, n)) == (b * Pow(b, m - 1)) * Pow(b, n);
    }
  }

  /** Pow(b, n) is non-increasing in n for 0 <= b <= 1. */
  lemma {:induction false} PowAntitone(b: real, m: nat, n: nat)
    requires 0.0 <= b <= 1.0
    requires m <= n
    ensures Pow(b, n) <= Pow(b, m)
  {
    if m < n {
      PowAntitone(b, m, n - 1);
      PowBounds(b, n - 1);
    }
  }

  /** After n frames with a constant target the deviation is 0.92^n of the initial one. */
  lemma {:induction false} SmoothForDeviation(smoothed: Vector2, target: Vector2, n: nat)
    ensures Sub(SmoothFor(smoothed, target, n), target) == Mult(Sub(smoothed, target), Pow(0.92, n))
  {
    if n > 0 {
      SmoothForDeviation(smoothed, target, n - 1);
      SmoothContracts(SmoothFor(smoothed, target, n - 1), target);
      var d := Sub(smoothed, target);
      assert (d.x * Pow(0.92, n - 1)) * 0.92 == d.x * Pow(0.92, n);
      assert (d.y * Pow(0.92, n - 1)) * 0.92 == d.y * Pow(0.92, n);
    }
  }

  /** The distance to a constant target never increases from one frame to the next. */
  lemma {:induction false} SmoothForMonotone(smoothed: Vector2, target: Vector2, n: nat)
    ensures MagSq(Sub(SmoothFor(smoothed, target, n + 1), target)) <= MagSq(Sub(SmoothFor(smoothed, target, n), target))
  {
    SmoothContracts(SmoothFor(smoothed, target, n), target);
  }

  lemma Pow92At56()
    ensures Pow(0.92, 56) <= 0.01
  {
    var a := Pow(0.92, 8);
    assert a == 0.5132188731375616;
    PowAdd(0.92, 8, 8);
    PowAdd(0.92, 16, 8);
    PowAdd(0.92, 24, 8);
    PowAdd(0.92, 32, 8);
    PowAdd(0.92, 40, 8);
    PowAdd(0.92, 48, 8);
    assert Pow(0.92, 56) == a * a * a * a * a * a * a;
  }

  /** From frame 56 on the smoothed force is within 1% of the initial distance to a constant target. */
  lemma {:induction false} SmoothWithinOnePercent(smoothed: Vector2, target: Vector2, n: nat)
    requires n >= 56
    ensures MagSq(Sub(SmoothFor(smoothed, target, n), target)) <= 0.0001 * MagSq(Sub(smoothed, target))
  {
    var d := Sub(smoothed, target);
    SmoothForDeviation(smoothed, target, n);
    Pow92At56();
    PowAntitone(0.92, 56, n);
    PowBounds(0.92, n);
    var p := Pow(0.92, n);
    MagSqMult(d, p);
    MagSqNonNegative(d);
    assert p * p <= 0.0001 by {
      assert p * p <= 0.01 * p;
    }
  }
}
