# Swarm steering and particle integration, in Dafny

A model of the core of `sketch.js`, a p5.js sketch of an ambient particle
swarm that is steered by device tilt or by pointer/touch drag. The model
covers:

- **Orientation tracker** (`Sketch.SketchState`): the process-wide flags
  `needsPermission` and `permissionGranted`, the normalised tilt
  `orientationVector` and its timestamp `lastOrientationTime`; the
  device-orientation handler, and the state change when the motion-permission
  request settles (granted, denied or failed).
- **Input resolver** (`Steering.ResolveTarget`): the per-frame choice of one
  steering source, in priority order: a live orientation sample (granted and
  under 900 ms old), then pointer or touch (normalised by
  `max(min(width, height) / 2, 1)`, limited to length 1, scaled by 0.65, zero
  for non-finite coordinates), then idle (zero on any platform with a permission
  gate, `needsPermission`, whatever the outcome of the request; otherwise the
  ambient wave scaled by 0.18).
- **Smoothing** (`Steering.Smooth`): `smoothedForce.lerp(targetForce, 0.08)`,
  an exponential moving average, with its contraction towards the target.
- **Particles** (`Particles.Particle`): `applyForce`, `applyFlow`, `update`
  (velocity limited to 2.4, position advanced, accumulator cleared) and
  `wrapAround` (toroidal wrap with the particle size as margin), and the
  per-frame loop of `draw` over the fixed pool of 140 particles
  (`Sketch.SketchState.Draw`).

Modules: `Vectors` (the p5.Vector and scalar helpers the sketch uses),
`Steering`, `Particles`, `Sketch`. JavaScript numbers are modelled as `real`.
Inputs from the environment are parameters: `now` (`Date.now()`), the
viewport `width`/`height`, the pointer state (`PointerInput`), the ambient
pair `wave` = (sin(frameCount·0.01), cos(frameCount·0.013)), the per-particle
flow direction chosen by `noise()` (`flowDirs`), the random draws of each
particle (`Seed`), the platform's orientation capability and the settled
permission outcome. `Math.sqrt` is the parameter `sqrt`, of which the model
assumes only that it returns the exact non-negative root (`Vectors.IsSqrt`).

Behaviour of the code that the model keeps, and that a reader might expect
otherwise:

- Idle at frame 0 with no permission gate gives the target (0, 0.18), since
  cos 0 = 1, not the zero vector (`Steering.IdleAtFrameZero`).
- A wrap across an edge moves a particle by more than one viewport dimension:
  from just below `-size` it lands at `dim + size` (`Particles.WrapJump`).
- On a platform with a permission gate the idle target stays zero for the
  whole session, after a grant (once the sample is stale), a denial or a
  failure alike, because `needsPermission` is never cleared.
- The flow contribution is added to every particle every frame, and velocity
  is never damped.
- A sample is already stale at exactly 900 ms after capture (`< 900`).

## Model

| member | source | states |
|---|---|---|
| `Vectors.Div` | sketch.js:74 | dividing by a non-zero scalar is undone by multiplying by it; division by zero leaves the vector unchanged |
| `Vectors.Constrain` | sketch.js:146-147 | the result lies in [low, high], equals n inside the range and the nearer bound outside it |
| `Vectors.LimitBound` | sketch.js:200 | `limit(max)` gives squared length at most max², exactly max² with the same direction when it shortens, and is the identity on vectors already within bounds |
| `Steering.Tilt` | sketch.js:143-147 | the normalised tilt lies in [-1, 1]; a missing reading gives 0; an in-range angle a gives a/45; an angle beyond ±45 saturates at ±1 |
| `Steering.TiltScenarios` | sketch.js:143-147 | gamma 45 gives 1, gamma -90 gives -1, 22.5 gives 0.5, a missing reading gives 0 |
| `Steering.OrientationWindow` | sketch.js:65 | a sample at t0 is live iff fewer than 900 ms have elapsed: live at t0+899, stale from t0+900 on, never live without permission |
| `Steering.PointerScale` | sketch.js:73 | the pointer scale is at least 1 and at least half the smaller viewport side, and is one of the two |
| `Steering.ResolvePriority` | sketch.js:65-94 | the mode is Orientation iff orientation is live, Pointer iff not live and a touch or press is present, Idle otherwise; when live the target is (0.55·ox, -0.55·oy) whatever the pointer state |
| `Steering.OrientationTargetBound` | sketch.js:67-69 | with a normalised tilt the orientation target is within ±0.55 on each axis |
| `Steering.PointerTargetBound` | sketch.js:70-78 | in the pointer branch the target's squared length is at most 0.65² |
| `Steering.PointerNonFinite` | sketch.js:71-78 | a non-finite mouseX or mouseY in the pointer branch gives the zero target |
| `Steering.PointerAtCentre` | sketch.js:72-75 | a pointer exactly at the viewport centre gives the zero target |
| `Steering.IdleTarget` | sketch.js:80-93 | idle gives zero on any platform with a permission gate (`needsPermission`), whatever the outcome; otherwise 0.18 times the ambient wave, within ±0.18 on each axis |
| `Steering.IdleAtFrameZero` | sketch.js:88-93 | at frame 0 the ungated idle target is (0, 0.18) |
| `Steering.SmoothContracts` | sketch.js:96 | one lerp step leaves a deviation of exactly 0.92 times the previous one, so the distance to the target never grows |
| `Steering.SmoothForDeviation` | sketch.js:96 | after n frames with a constant target the deviation is 0.92ⁿ times the initial deviation |
| `Steering.SmoothForMonotone` | sketch.js:96 | with a constant target the distance to it is non-increasing frame by frame |
| `Steering.SmoothWithinOnePercent` | sketch.js:96 | from frame 56 on the distance to a constant target is at most 1% of the initial distance |
| `Particles.WrapAxisSpec` | sketch.js:207-208 | one axis of wrapAround lands in [-size, dim+size], leaves an in-range coordinate alone and re-enters at the opposite edge otherwise |
| `Particles.WrapPosSpec` | sketch.js:206-211 | wrapAround keeps a position in the padded viewport, fixes in-bounds positions and is idempotent |
| `Particles.WrapJump` | sketch.js:207 | a wrap across the low edge moves the coordinate by more than dim + 2·size |
| `Particles.IntegrateSpec` | sketch.js:198-204 | after update the accumulator is zero, the speed is at most 2.4, an under-limit velocity is kept, and the position is the old position plus the new velocity, wrapped and in bounds |
| `Particles.StepSpec` | sketch.js:98-101 | one frame of a particle with an empty accumulator sets the velocity to limit(vel + force + flow, 2.4) and keeps the invariants of update |
| `Particles.FlowMagnitude` | sketch.js:192-195 | the flow contribution of a unit direction has magnitude 0.05 |
| `Particles.Particle.constructor` | sketch.js:177-185 | a new particle has the given position, velocity and size in [6, 16) and an empty accumulator |
| `Particles.Particle.ApplyForce` | sketch.js:187-189 | the force is added to the accumulator; position and velocity are unchanged |
| `Particles.Particle.ApplyFlow` | sketch.js:191-196 | the flow vector is added to the accumulator; position and velocity are unchanged |
| `Particles.Particle.Update` | sketch.js:198-204 | the new state is the integration of the old one: accumulator zero, speed at most 2.4, position in bounds |
| `Particles.Particle.WrapAround` | sketch.js:206-211 | the four guarded assignments give the wrapped position; velocity and accumulator are unchanged |
| `Sketch.StepParticle` | sketch.js:98-101 | the forEach callback takes a particle to one frame's step of its old state |
| `Sketch.SketchState.constructor` | sketch.js:25-51 | setup creates 140 distinct fresh particles from the seeds, zero vectors and time 0, and sets the permission flags from the platform capability |
| `Sketch.SketchState.RequestMotionAccess` | sketch.js:110-135 | on a gated platform permission becomes granted exactly when the outcome is a grant; otherwise nothing changes |
| `Sketch.SketchState.HandleOrientation` | sketch.js:138-150 | ignored while gated and not granted; otherwise stores (Tilt(gamma), Tilt(beta)) and the event time |
| `Sketch.SketchState.Draw` | sketch.js:60-104 | the mode and target are the resolver's, the smoothed force is one lerp step towards the target, every particle takes one step with the new smoothed force and its flow, and all speeds and positions are in bounds afterwards |

## Left out

- Status and indicator text (`updateStatus`, `setIndicator`, every message string, `orientationMessageShown`): user-interface side effects only.
- Canvas creation, colour mode, `background`, `windowResized`, `Particle.draw` and the twinkle, hue and alpha parameters of a particle: display only.
- `noise()`, `sin` and `cos`: the flow direction and the ambient wave are inputs; `Particles.Flow` scales the given direction by 0.05 and the ambient components are scaled by 0.18 in the model.
- The random draws of the particle constructor: they are the `Seed` inputs; the model requires only that the size lies in [6, 16).
- The asynchronous `DeviceOrientationEvent.requestPermission()` promise, the button and event-listener registration: only the settled outcome is modelled. That the button listener fires at most once (so a denial is never retried) belongs to the event wiring and is not modelled; the `typeof DeviceOrientationEvent` guard of `requestMotionAccess` is implied by `needsPermission`.
- IEEE-754 rounding, NaN and Infinity inside vector arithmetic (including the `|| 0` of p5's lerp and a NaN tilt angle): numbers are exact reals; only non-finite pointer coordinates are modelled, as `JsNumber.NonFinite`.
- The z component of p5 vectors: always zero in this sketch.
- `Math.sqrt` is not defined in the model; it is the parameter `sqrt` with the exactness assumption `Vectors.IsSqrt`.
