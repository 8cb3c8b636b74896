# pan-samochodzik in Dafny

A verified model of the simulation core of *pan-samochodzik*, a small
top-down car game written in Rust on the piston engine. The model covers
four parts of the program:

- **`CarSteering`** (`car_steering.dfy`): a bicycle-model car.
  - Five one-shot input setters.
  - A steering smoother and a speed attenuation of the steer.
  - The derived constants of the configuration.
  - The capped combined brake.
  - The tire, traction and drag force model.
  - The Euler integration, the low-speed stop, and the reset of the inputs at the end of every `update`.

  `CarSteering` is a class whose fields mirror the Rust struct. Its `Update`
  method is proved equal to the specification function `Tick` on the old
  state. The properties of a tick and of a whole run of ticks (`Run`) are
  lemmas about `Tick`.
- **The track border** (`track.dfy`): the flat coordinate array `BORDER`.
  - It is turned into the point list and the `(i, i + 1)` index list of the collision polyline.
  - It is also turned into the segment list the renderer draws.

  The slice iterators `windows(k)` and `step_by(2)` are modelled as
  functions over sequences.
- **The keyboard bindings** (`input_state.dfy`): `InputState` holds four
  held-key flags. Pressing W/A/D/S sets one of them and releasing the key
  clears it. `HandleEvent` is proved equal to the specification function
  `Handled`.
- **The kinematic `App` update** (`app.rs`, modelled in `app.dfy`): this is
  the loop the program's `main` actually drives. Each tick turns at 2 rad/s
  and drives at 100 units/s along the current rotation. `Update` is proved
  equal to `RotationAfter` and `PositionAfter`.

The methods that change state (`CarSteering.CarSteering.Update` and
`ApplyForces`, the setters, `InputState.HandleEvent` and `App.Update`) state
their new state through `old`. Their properties are proved as lemmas about
the specification functions `Tick`, `Integrate`, `Handled`, `RotationAfter`
and `PositionAfter`.

All arithmetic is over Dafny's `real`. `sin`, `cos`, `atan2` and `sqrt` are
uninterpreted: they are fields of a `Libm` value passed to every member that
needs them (`realmath.dfy`). Only the lemmas that need a fact about them
assume it, for example that `sqrt` is never negative or that
`atan2(0, 0) == 0`.

## Model

| member | source | states |
|---|---|---|
| RealMath.Signum | src/car_steering.rs:161 | `f64::signum` is ±1, `signum(x) * x == |x|`, and every non-negative input (zero included, as +0.0) gives 1 |
| CarSteering.FromConfig | src/car_steering.rs:76-84 | wheel base is the sum of the axle distances; inertia is mass times inertia scale; each axle ratio times the wheel base is the opposite axle distance; the two ratios sum to 1; with positive axle distances both ratios lie strictly between 0 and 1 |
| CarSteering.DefaultDerivedConstants | src/car_steering.rs:6-30 | `DEF_STEERING` is non-degenerate and derives inertia 1200, wheel base 2.5 and a 0.5/0.5 weight split |
| CarSteering.SmoothSteer | src/car_steering.rs:116-126 | with a steer input the result is in [-1, 1] from any start, and moves toward the input's side; with a start in [-1, 1] and dt ≥ 0 it stays in [-1, 1]; without input its magnitude is `max(|steer| - dt, 0)` and it lies between 0 and the old steer (same sign, never overshoots zero) |
| CarSteering.SafeSteer | src/car_steering.rs:128-131 | for a non-negative speed the result lies between 0 and the steer (never larger in magnitude, same sign); it is exactly 0 from 250 m/s up and the steer itself at speed 0 |
| CarSteering.SteerAfter | src/car_steering.rs:136-138 | the stored steer after the smoothing and the attenuation stays in [-1, 1], and is 0 at 250 m/s or more |
| CarSteering.SteerAngle | src/car_steering.rs:139 | for a steer in [-1, 1] and a non-negative `max_steer` the wheel angle is within `max_steer`; straight steer gives angle 0 |
| CarSteering.CombinedBrake | src/car_steering.rs:171 | the combined brake never exceeds `brake_force` nor the uncapped sum, and is one of the two |
| CarSteering.RearGrip | src/car_steering.rs:165 | rear grip is the full tire grip without the e-brake and `tire_grip * lock_grip` with it |
| CarSteering.Loads | src/car_steering.rs:152-153 | no contract; its behaviour is stated by `CarSteering.LoadsCarryWeight` |
| CarSteering.LoadsCarryWeight | src/car_steering.rs:152-153 | the weight transfer moves load between the axles only: front plus rear load is always `mass * gravity` |
| CarSteering.LateralForce | src/car_steering.rs:167-168 | a lateral tire force is bounded by grip times the axle load, and vanishes at zero slip |
| CarSteering.Drag | src/car_steering.rs:179-180 | with non-negative resistances drag opposes the velocity (`drag * v <= 0`), and it is 0 at rest |
| CarSteering.DragIsOdd | src/car_steering.rs:179-180 | reversing the velocity reverses the drag |
| CarSteering.ToLocal | src/car_steering.rs:148-149 | no contract; its behaviour is stated by `CarSteering.FrameRoundTrip` |
| CarSteering.ToWorld | src/car_steering.rs:191-192 | no contract; its behaviour is stated by `CarSteering.FrameRoundTrip` |
| CarSteering.FrameRoundTrip | src/car_steering.rs:148-149 | the world-to-car rotation (lines 148-149) and the car-to-world rotation (lines 191-192) are inverses when `sn² + cs² = 1` |
| CarSteering.Dynamics | src/car_steering.rs:143-201 | no contract; the force model of one tick, from the local velocity to the accelerations and the torque; its behaviour is stated by `CarSteering.RestForcesVanish` and by the contracts of `Loads`, `LateralForce`, `RearGrip`, `CombinedBrake`, `Drag` and `FrameRoundTrip`, which it composes |
| CarSteering.Stops | src/car_steering.rs:204 | no contract; the guard of the low-speed stop, used by `CarSteering.IntegrateLowSpeedStop` and `CarSteering.LowSpeedStop` |
| CarSteering.Integrate | src/car_steering.rs:194-219 | no contract; its behaviour is stated by `CarSteering.IntegrateLowSpeedStop` |
| CarSteering.IntegrateLowSpeedStop | src/car_steering.rs:194-219 | both directions of the stop branch: when it is taken, velocity, speed and yaw rate are 0 and heading and position keep their old values; otherwise velocity, speed, yaw rate, heading and position are the Euler-integrated ones |
| CarSteering.Tick | src/car_steering.rs:133-222 | no contract; the specification of `CarSteering.CarSteering.Update`; its behaviour is stated by `TickSteerBounded`, `LowSpeedStop`, `NoThrottleSlowTickStops` and `RestTickStaysAtRest` |
| CarSteering.TickForces | src/car_steering.rs:136-201 | no contract; the forces `Tick` applies, at the tick's new wheel angle; used by `CarSteering.LowSpeedStop` |
| CarSteering.TickSteerBounded | src/car_steering.rs:136-139 | after a tick from a steer in [-1, 1] the steer is in [-1, 1], the wheel angle is `max_steer * steer`, and it is within `max_steer` |
| CarSteering.LowSpeedStop | src/car_steering.rs:204-219 | the stop branch over a whole tick, in both directions, with the tick's own forces |
| CarSteering.NoThrottleSlowTickStops | src/car_steering.rs:204-210 | with no throttle input, a tick that integrates to below 0.5 m/s leaves velocity, speed and yaw rate at 0 |
| CarSteering.RestForcesVanish | src/car_steering.rs:143-201 | a car at rest with straight wheels and no input feels no force, no acceleration and no torque |
| CarSteering.RestTickStaysAtRest | src/car_steering.rs:133-222 | a tick with no input leaves a car at rest at rest, at the same position and heading |
| CarSteering.Run | src/car_steering.rs:133-222 | no contract; successive calls of `update`; its behaviour is stated by `CarSteering.RunSteerBounded` and `CarSteering.RunRestStaysAtRest` |
| CarSteering.RunSteerBounded | src/car_steering.rs:136-139 | over any sequence of ticks with dt ≥ 0 the steer stays in [-1, 1] and the wheel angle within `max_steer` |
| CarSteering.RunRestStaysAtRest | src/car_steering.rs:133-222 | any number of ticks without input leave a car at rest where it was |
| CarSteering.CarSteering.constructor | src/car_steering.rs:106-114 | `new`: the derived constants come from the configuration, the car is at the given position, and every other field is zero |
| CarSteering.CarSteering.Accelerate | src/car_steering.rs:224-226 | sets the throttle input to 1 and nothing else |
| CarSteering.CarSteering.Brake | src/car_steering.rs:228-230 | sets the brake input to 1 and nothing else |
| CarSteering.CarSteering.Ebrake | src/car_steering.rs:232-234 | sets the e-brake input to 1 and nothing else |
| CarSteering.CarSteering.SteerLeft | src/car_steering.rs:236-238 | sets the left input to 1 and nothing else |
| CarSteering.CarSteering.SteerRight | src/car_steering.rs:240-242 | sets the right input to 1 and nothing else |
| CarSteering.CarSteering.Update | src/car_steering.rs:133-222 | the new motion state is `Tick` of the old state and the old inputs; configuration and derived constants are unchanged; every input is 0 afterwards; a steer in [-1, 1] stays in [-1, 1] when the old speed and `dt` are not negative |
| CarSteering.CarSteering.ApplyForces | src/car_steering.rs:187-219 | storing the forces and the integration, stop branch included, give exactly `Integrate` of the old state |
| Track.Windows | src/track.rs:83 | `windows(k)` yields `|s| - k + 1` windows (none if `|s| < k`), window `i` being `s[i..i+k]` |
| Track.StepByTwo | src/track.rs:84 | `step_by(2)` keeps `ceil(|s| / 2)` elements, element `i` being `s[2i]` |
| Track.PointsOf | src/track.rs:82-86 | `|b| / 2` points, point `i` being `(b[2i], b[2i+1])` |
| Track.IndicesFor | src/track.rs:88-91 | the index range underflows (a panic) exactly when fewer than 2 coordinates are given; otherwise there are `len / 2 - 1` pairs, pair `i` being `(i, i + 1)` |
| Track.SegmentsOf | src/track.rs:75-77 | `draw_border` draws `(|b| - 2) / 2` segments (none below 4 coordinates), segment `k` being `(b[2k], b[2k+1], b[2k+2], b[2k+3])` |
| Track.ShapeOf | src/track.rs:81-94 | no contract; its behaviour is stated by `Track.ShapeIndicesValid`, `Track.ShapeIsOpen`, `Track.ShapeSizes` and `Track.DrawnSegmentsMatchShape` |
| Track.ShapeIndicesValid | src/track.rs:88-91 | every index refers to a point of the shape, and each pair joins consecutive points; one index pair fewer than points |
| Track.ShapeIsOpen | src/track.rs:88-91 | no pair leaves the last point, so none closes the loop back to point 0 |
| Track.DrawnSegmentsMatchShape | src/track.rs:72-94 | the drawn segments are as many as the index pairs, and segment `k` joins exactly the two points index pair `k` names |
| Track.ShapeSizes | src/track.rs:81-94 | for any array with at least one point the shape exists, with `|b| / 2` points, one index pair fewer, point `i` being `(b[2i], b[2i+1])`, and as many drawn segments as index pairs |
| Track.BorderHasFiftyNinePoints | src/track.rs:8-68 | `BORDER` has 118 coordinates, an even number: 59 points |
| Track.GetBorderShape | src/track.rs:81-94 | no contract; its behaviour is stated by `Track.BorderShapeWellFormed` |
| Track.DrawBorder | src/track.rs:72-79 | no contract; its behaviour is stated by `Track.BorderShapeWellFormed` and the contract of `Track.SegmentsOf` |
| Track.BorderShapeWellFormed | src/track.rs:81-94 | the track's shape is built without underflow, with 59 points, 58 index pairs and point `i` equal to `(BORDER[2i], BORDER[2i+1])`; the border draws 58 segments |
| InputState.Bind | src/input_state.rs:15-23 | a bind sets or clears exactly the one flag its key is bound to; other keys change nothing |
| InputState.Handled | src/input_state.rs:12-29 | press of W/A/D/S sets forward/left/right/back, release clears it; other keys and non-keyboard events leave the flags as they were |
| InputState.AtMostOneFlagChanges | src/input_state.rs:15-28 | an event changes at most one flag |
| InputState.HandledIdempotent | src/input_state.rs:18-19 | delivering an event twice is the same as delivering it once |
| InputState.PressReleaseRoundTrip | src/input_state.rs:15-28 | an unbound key's press changes nothing; for each of W/A/D/S a release undoes a press when its flag was clear, and a press undoes a release when its flag was set |
| InputState.InputState.constructor | src/input_state.rs:3-9 | `InputState::default()` holds no key |
| InputState.InputState.HandleEvent | src/input_state.rs:12-29 | the four in-place binds give exactly `Handled` of the old flags |
| App.RotationAfter | src/app.rs:54-60 | +2·dt under (forward ∧ right) ∨ (back ∧ left) alone, −2·dt under (forward ∧ left) ∨ (back ∧ right) alone, no change when both or neither guard holds, and none without left or right |
| App.Step | src/app.rs:63-64 | no contract; the displacement `100·dt·(cos, sin)` of one tick, used by `App.PositionAfter` |
| App.PositionAfter | src/app.rs:62-70 | no move without forward and back, none with both (the steps cancel over the reals), one step ahead for forward and one back for back |
| App.MovesAlongNewRotation | src/app.rs:54-64 | the displacement uses the rotation after this tick's turn |
| App.IdleTickChangesNothing | src/app.rs:51-71 | with no key held neither rotation nor position changes |
| App.App.constructor | src/app.rs:24-30 | `App::new` starts at rotation 0 at the origin |
| App.App.Update | src/app.rs:51-71 | the in-place turn and moves give exactly `RotationAfter` and `PositionAfter` with the new rotation |

## Left out

- Rendering: `CarSteering::draw`, `get_transform`, `App::render`, the `car` function and the `line` calls of `draw_border` are graphics output. Only the segment list `draw_border` would draw is modelled.
- `src/main.rs`, with its window and piston event loop, is not part of this model. It is host plumbing.
- `src/vec_math.rs` and `TransformedVec` are not part of this model. They are thin wrappers over the graphics library's transforms.
- `Polyline2::new` and its `Arc`s (ncollide) are a foreign library. The model stops at the point and index sequences passed to it (`Track.ShapeOf`).
- The piston event types are reduced to what the binds look at: press or release of a keyboard key or of another button, and any other event.
- Floating point: the model computes over the reals. It leaves out rounding, overflow, NaN from a zero mass, wheel base or inertia (preconditions `Nondegenerate`/`Divisors` exclude these), -0.0, and the rounding that keeps forward plus back from cancelling exactly.
- `sin`, `cos`, `atan2` and `sqrt` are uninterpreted. Hence no claims about terminal velocity, mirror symmetry of the handling, or the e-brake's effect on slip.
- `CarSteering.CarSteering.Update` delegates its second half, from the accelerations through the position step, to a separate method `ApplyForces`. The Rust `update` is one function. `ApplyForces` computes velocity, speed and yaw rate in locals and stores them in the fields together. Rust writes each field as it goes and reads some of them back: `velocity` at lines 198 and 218, `abs_vel` at line 204 and `yaw_rate` at line 215. The Dafny locals hold those same values at those points, so the final state is the same. What is left out is only the order of the stores.
- `apply_smooth_steer` and `apply_safe_steer` read `self.steer` and `self.abs_vel` through `&self`. Here they are functions that take those values as arguments.
- The setters take a `dt` they ignore, as in the source.
- `Track.StepByTwo` models `step_by` only with the step 2 that the border code uses.
