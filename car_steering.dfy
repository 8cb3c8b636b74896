/** The car controller of src/car_steering.rs: a bicycle-model car whose
    `update` smooths and attenuates the steering, computes tire, traction
    and drag forces, integrates velocity, yaw rate, heading and position,
    stops the car at very low speed and clears the one-shot inputs.
    Arithmetic is over the reals; `sin`, `cos`, `atan2` and `sqrt` are the
    uninterpreted functions of a `Libm` parameter. */
module CarSteering {
  import opened RealMath

  /** `SteeringCfg`: the physical and tuning constants of one car. */
  datatype SteeringCfg = SteeringCfg(
    gravity: real,               // m/s^2
    mass: real,                  // kg
    inertiaScale: real,          // multiplied by mass for inertia
    halfWidth: real,             // centre to side of chassis (m)
    cgToFront: real,             // centre of gravity to front of chassis
    cgToRear: real,              // centre of gravity to rear of chassis
    cgToFrontAxle: real,
    cgToRearAxle: real,
    cgHeight: real,
    wheelRadius: real,
    wheelWidth: real,
    tireGrip: real,
    lockGrip: real,              // fraction of grip left when the wheel is locked
    engineForce: real,
    brakeForce: real,
    ebrakeForce: real,
    weightTransfer: real,
    maxSteer: real,              // maximum front wheel angle (rad)
    cornerStiffnessFront: real,
    cornerStiffnessRear: real,
    airResist: real,
    rollResist: real)

  /** `DEF_STEERING`. */
  const DefSteering: SteeringCfg := SteeringCfg(
    9.81, 1200.0, 1.0, 0.8, 2.0, 2.0, 1.25, 1.25, 0.55, 0.3, 0.2,
    2.0, 0.7, 8000.0, 12000.0, 4800.0, 0.2, 0.6, 5.0, 5.2, 2.5, 8.0)

  /** `CarInputState`: the one-shot commands of the current tick, each 0 or 1. */
  datatype CarInputState = CarInputState(left: real, right: real, throttle: real, brake: real, ebrake: real)

  /** `CarInputState::default()`. */
  const NeutralInput: CarInputState := CarInputState(0.0, 0.0, 0.0, 0.0, 0.0)

  /** `CarConfigComputed`: the constants derived once from the configuration. */
  datatype CarConfigComputed = CarConfigComputed(
    inertia: real, wheelBase: real, axleWeightRatioFront: real, axleWeightRatioRear: real)

  /** The divisions of `from_config` and `update` are by a non-zero number:
      the wheel base, the mass and the inertia. */
  predicate Nondegenerate(cfg: SteeringCfg)
  {
    cfg.cgToFrontAxle + cfg.cgToRearAxle != 0.0 && cfg.mass != 0.0 && cfg.mass * cfg.inertiaScale != 0.0
  }

  /** `CarConfigComputed::from_config`. */
  function FromConfig(cfg: SteeringCfg): (c: CarConfigComputed)
    requires cfg.cgToFrontAxle + cfg.cgToRearAxle != 0.0
    ensures c.wheelBase == cfg.cgToFrontAxle + cfg.cgToRearAxle
    ensures c.inertia == cfg.mass * cfg.inertiaScale
    ensures c.axleWeightRatioFront * c.wheelBase == cfg.cgToRearAxle
    ensures c.axleWeightRatioRear * c.wheelBase == cfg.cgToFrontAxle
    ensures c.axleWeightRatioFront + c.axleWeightRatioRear == 1.0
    ensures cfg.cgToFrontAxle > 0.0 && cfg.cgToRearAxle > 0.0 ==>
              0.0 < c.axleWeightRatioFront < 1.0 && 0.0 < c.axleWeightRatioRear < 1.0
  {
    var wheelBase := cfg.cgToFrontAxle + cfg.cgToRearAxle;
    CarConfigComputed(cfg.mass * cfg.inertiaScale, wheelBase, cfg.cgToRearAxle / wheelBase, cfg.cgToFrontAxle / wheelBase)
  }

  /** The default car: wheel base 2.5 m, inertia 1200, half its weight on each axle. */
  lemma DefaultDerivedConstants()
    ensures Nondegenerate(DefSteering)
    ensures FromConfig(DefSteering) == CarConfigComputed(1200.0, 2.5, 0.5, 0.5)
  {
  }

  /** `apply_smooth_steer`: with a steer input, move toward it at 2/s and
      clamp to [-1, 1]; without one, decay toward 0 at 1/s without crossing it. */
  function SmoothSteer(steer: real, steerInput: real, dt: real): (r: real)
    ensures Abs(steerInput) > 0.001 ==> -1.0 <= r <= 1.0
    ensures -1.0 <= steer <= 1.0 && dt >= 0.0 ==> -1.0 <= r <= 1.0
    ensures steerInput > 0.001 && dt >= 0.0 && steer <= 1.0 ==> steer <= r
    ensures steerInput < -0.001 && dt >= 0.0 && steer >= -1.0 ==> r <= steer
    ensures Abs(steerInput) <= 0.001 && dt >= 0.0 ==> Abs(r) == Max(Abs(steer) - dt, 0.0)
    ensures Abs(steerInput) <= 0.001 && dt >= 0.0 ==> BetweenZeroAnd(r, steer)
  {
    if Abs(steerInput) > 0.001 then
      var target := steer + steerInput * dt * 2.0;
      assert steerInput > 0.0 && dt >= 0.0 ==> steer <= target by {
        if steerInput > 0.0 && dt >= 0.0 { MulNonNegative(steerInput, dt); }
      }
      assert steerInput < 0.0 && dt >= 0.0 ==> target <= steer by {
        if steerInput < 0.0 && dt >= 0.0 { MulNonNegative(-steerInput, dt); }
      }
      Min(Max(target, -1.0), 1.0)
    else if steer > 0.0 then Max(steer - dt * 1.0, 0.0)
    else if steer < 0.0 then Min(steer + dt * 1.0, 0.0)
    else 0.0
  }

  lemma MulNonNegative(a: real, b: real)
    requires a >= 0.0 && b >= 0.0
    ensures a * b >= 0.0
  {
  }

  /** `x * f` for a factor `f` in [0, 1] lies between 0 and `x`. */
  lemma ScaleShrinks(x: real, f: real)
    requires 0.0 <= f <= 1.0
    ensures BetweenZeroAnd(x * f, x)
  {
    MulNonNegative(if x >= 0.0 then x else -x, f);
    MulNonNegative(if x >= 0.0 then x else -x, 1.0 - f);
  }

  /** `apply_safe_steer`: scale the steer by `1 - min(absVel, 250) / 250`,
      so that steering authority vanishes linearly up to 250 m/s. */
  function SafeSteer(steer: real, absVel: real): (r: real)
    ensures absVel >= 0.0 ==> BetweenZeroAnd(r, steer)
    ensures absVel >= 250.0 ==> r == 0.0
    ensures absVel == 0.0 ==> r == steer
  {
    var avel := Min(absVel, 250.0);
    var r := steer * (1.0 - avel / 250.0);
    assert absVel >= 0.0 ==> BetweenZeroAnd(r, steer) by {
      if absVel >= 0.0 { ScaleShrinks(steer, 1.0 - avel / 250.0); }
    }
    r
  }

  /** The steer the car keeps after a tick: smoothed toward `right - left`,
      then attenuated by the speed of the previous tick. This attenuated
      value is what the next tick smooths from. */
  function SteerAfter(steer: real, absVel: real, input: CarInputState, dt: real): (r: real)
    ensures -1.0 <= steer <= 1.0 && dt >= 0.0 && absVel >= 0.0 ==> -1.0 <= r <= 1.0
    ensures Abs(input.right - input.left) > 0.001 && absVel >= 0.0 ==> -1.0 <= r <= 1.0
    ensures absVel >= 250.0 ==> r == 0.0
  {
    SafeSteer(SmoothSteer(steer, input.right - input.left, dt), absVel)
  }

  /** `steer_angle = max_steer * steer`: the front wheel angle. */
  function SteerAngle(maxSteer: real, steer: real): (r: real)
    ensures maxSteer >= 0.0 && -1.0 <= steer <= 1.0 ==> Abs(r) <= maxSteer
    ensures steer == 0.0 ==> r == 0.0
  {
    assert maxSteer >= 0.0 && -1.0 <= steer <= 1.0 ==> Abs(maxSteer * steer) <= maxSteer by {
      if maxSteer >= 0.0 && -1.0 <= steer <= 1.0 {
        MulNonNegative(maxSteer, if steer >= 0.0 then steer else -steer);
        MulNonNegative(maxSteer, if steer >= 0.0 then 1.0 - steer else 1.0 + steer);
      }
    }
    maxSteer * steer
  }

  /** `brake * brake_force + ebrake * ebrake_force`, capped at `brake_force`. */
  function CombinedBrake(input: CarInputState, cfg: SteeringCfg): (r: real)
    ensures r <= cfg.brakeForce
    ensures r <= input.brake * cfg.brakeForce + input.ebrake * cfg.ebrakeForce
    ensures r == cfg.brakeForce || r == input.brake * cfg.brakeForce + input.ebrake * cfg.ebrakeForce
  {
    Min(input.brake * cfg.brakeForce + input.ebrake * cfg.ebrakeForce, cfg.brakeForce)
  }

  /** Rear tire grip: the full grip, scaled toward `lock_grip` by the e-brake. */
  function RearGrip(cfg: SteeringCfg, ebrake: real): (r: real)
    ensures ebrake == 0.0 ==> r == cfg.tireGrip
    ensures ebrake == 1.0 ==> r == cfg.tireGrip * cfg.lockGrip
  {
    cfg.tireGrip * (1.0 - ebrake * (1.0 - cfg.lockGrip))
  }

  /** Normal loads on the two axles (`axle_weight_front`, `axle_weight_rear`). */
  datatype AxleLoads = AxleLoads(front: real, rear: real)

  /** Static weight split plus the longitudinal weight transfer caused by
      the forward acceleration `accelX` of the previous tick. */
  function Loads(cfg: SteeringCfg, comp: CarConfigComputed, accelX: real): AxleLoads
    requires comp.wheelBase != 0.0
  {
    AxleLoads(
      cfg.mass * (comp.axleWeightRatioFront * cfg.gravity - cfg.weightTransfer * accelX * cfg.cgHeight / comp.wheelBase),
      cfg.mass * (comp.axleWeightRatioRear * cfg.gravity + cfg.weightTransfer * accelX * cfg.cgHeight / comp.wheelBase))
  }

  /** Weight transfer only moves load between the axles: together they
      always carry the car's weight. */
  lemma {:induction false} LoadsCarryWeight(cfg: SteeringCfg, accelX: real)
    requires cfg.cgToFrontAxle + cfg.cgToRearAxle != 0.0
    ensures Loads(cfg, FromConfig(cfg), accelX).front + Loads(cfg, FromConfig(cfg), accelX).rear == cfg.mass * cfg.gravity
  {
    var c := FromConfig(cfg);
    var t := cfg.weightTransfer * accelX * cfg.cgHeight / c.wheelBase;
    calc {
      Loads(cfg, c, accelX).front + Loads(cfg, c, accelX).rear;
      cfg.mass * (c.axleWeightRatioFront * cfg.gravity - t) + cfg.mass * (c.axleWeightRatioRear * cfg.gravity + t);
      cfg.mass * ((c.axleWeightRatioFront + c.axleWeightRatioRear) * cfg.gravity);
      cfg.mass * cfg.gravity;
    }
  }

  /** Lateral tire force: linear in the slip angle, clamped to the grip,
      times the axle load. */
  function LateralForce(stiffness: real, slip: real, grip: real, load: real): (r: real)
    ensures grip >= 0.0 ==> Abs(r) <= grip * Abs(load)
    ensures grip >= 0.0 && slip == 0.0 ==> r == 0.0
  {
    var c := Min(Max(-stiffness * slip, -grip), grip);
    assert grip >= 0.0 ==> Abs(c * load) <= grip * Abs(load) by {
      if grip >= 0.0 {
        assert Abs(c) <= grip;
        assert Abs(c * load) == Abs(c) * Abs(load);
        assert Abs(c) * Abs(load) <= grip * Abs(load);
      }
    }
    c * load
  }

  /** Drag along one local axis: rolling resistance plus air resistance. */
  function Drag(v: real, rollResist: real, airResist: real): (r: real)
    ensures rollResist >= 0.0 && airResist >= 0.0 ==> r * v <= 0.0
    ensures v == 0.0 ==> r == 0.0
  {
    -rollResist * v - airResist * v * Abs(v)
  }

  /** Drag is odd in the velocity: reversing the motion reverses the force. */
  lemma DragIsOdd(v: real, rollResist: real, airResist: real)
    ensures Drag(-v, rollResist, airResist) == -Drag(v, rollResist, airResist)
  {
  }

  /** World-frame vector in car coordinates (x forward, y sideways), given
      `sn` and `cs` of the heading. */
  function ToLocal(v: Vec2, sn: real, cs: real): Vec2
  {
    Vec2(cs * v.x + sn * v.y, cs * v.y - sn * v.x)
  }

  /** Car-frame vector in world coordinates. */
  function ToWorld(a: Vec2, sn: real, cs: real): Vec2
  {
    Vec2(cs * a.x - sn * a.y, sn * a.x + cs * a.y)
  }

  /** The two frame changes are inverse rotations when `sn` and `cs` are
      the sine and cosine of one angle. */
  lemma {:induction false} FrameRoundTrip(v: Vec2, sn: real, cs: real)
    requires sn * sn + cs * cs == 1.0
    ensures ToWorld(ToLocal(v, sn, cs), sn, cs) == v
    ensures ToLocal(ToWorld(v, sn, cs), sn, cs) == v
  {
    var l := ToLocal(v, sn, cs);
    calc {
      cs * l.x - sn * l.y;
      cs * (cs * v.x + sn * v.y) - sn * (cs * v.y - sn * v.x);
      (sn * sn + cs * cs) * v.x;
    }
    calc {
      sn * l.x + cs * l.y;
      sn * (cs * v.x + sn * v.y) + cs * (cs * v.y - sn * v.x);
      (sn * sn + cs * cs) * v.y;
    }
    var w := ToWorld(v, sn, cs);
    calc {
      cs * w.x + sn * w.y;
      cs * (cs * v.x - sn * v.y) + sn * (sn * v.x + cs * v.y);
      (sn * sn + cs * cs) * v.x;
    }
    calc {
      cs * w.y - sn * w.x;
      cs * (sn * v.x + cs * v.y) - sn * (cs * v.x - sn * v.y);
      (sn * sn + cs * cs) * v.y;
    }
  }

  /** `update`'s uses of the configuration divide by non-zero numbers. */
  predicate Divisors(cfg: SteeringCfg, comp: CarConfigComputed)
  {
    cfg.mass != 0.0 && comp.wheelBase != 0.0 && comp.inertia != 0.0
  }

  /** The mutable state of `CarSteering` other than the configuration and
      the inputs. */
  datatype Motion = Motion(
    heading: real, position: Vec2, velocity: Vec2, velocityC: Vec2,
    accel: Vec2, accelC: Vec2, absVel: real, yawRate: real, steer: real, steerAngle: real)

  /** The results of the force model of one tick. */
  datatype Forces = Forces(velocityC: Vec2, accelC: Vec2, accel: Vec2, torque: real, throttle: real)

  /** The force model of `update`: local velocity, axle loads, slip angles,
      lateral tire forces, traction, drag, the resulting accelerations and
      the yaw torque. */
  function Dynamics(m: Motion, steerAngle: real, cfg: SteeringCfg, comp: CarConfigComputed,
                    input: CarInputState, libm: Libm): Forces
    requires Divisors(cfg, comp)
  {
    var sn := libm.sin(m.heading);
    var cs := libm.cos(m.heading);
    var vc := ToLocal(m.velocity, sn, cs);
    var loads := Loads(cfg, comp, m.accelC.x);
    var yawSpeedFront := cfg.cgToFrontAxle * m.yawRate;
    var yawSpeedRear := -cfg.cgToRearAxle * m.yawRate;
    var slipFront := libm.atan2(vc.y + yawSpeedFront, Abs(vc.x)) - Signum(vc.x) * steerAngle;
    var slipRear := libm.atan2(vc.y + yawSpeedRear, Abs(vc.x));
    var frontCy := LateralForce(cfg.cornerStiffnessFront, slipFront, cfg.tireGrip, loads.front);
    var rearCy := LateralForce(cfg.cornerStiffnessRear, slipRear, RearGrip(cfg, input.ebrake), loads.rear);
    var brake := CombinedBrake(input, cfg);
    var throttle := input.throttle * cfg.engineForce;
    var tractionCx := throttle - brake * Signum(vc.x);
    var tractionCy := 0.0;
    var totalCx := Drag(vc.x, cfg.rollResist, cfg.airResist) + tractionCx;
    var totalCy := Drag(vc.y, cfg.rollResist, cfg.airResist) + tractionCy + libm.cos(steerAngle) * frontCy + rearCy;
    var accelC := Vec2(totalCx / cfg.mass, totalCy / cfg.mass);
    Forces(vc, accelC, ToWorld(accelC, sn, cs), (frontCy + tractionCy) * cfg.cgToFrontAxle - rearCy * cfg.cgToRearAxle, throttle)
  }

  /** One explicit Euler step: `x += rate * dt`. */
  function Euler(x: real, rate: real, dt: real): real
  {
    x + rate * dt
  }

  /** The velocity after the Euler step, before the low-speed stop. */
  function IntegratedVelocity(m: Motion, f: Forces, dt: real): Vec2
  {
    Vec2(Euler(m.velocity.x, f.accel.x, dt), Euler(m.velocity.y, f.accel.y, dt))
  }

  /** `sqrt(v.x^2 + v.y^2)`. */
  function Speed(v: Vec2, libm: Libm): real
  {
    libm.sqrt(v.x * v.x + v.y * v.y)
  }

  /** The low-speed stop condition of the tick with forces `f`: slower than
      0.5 m/s after integration, with zero throttle force. */
  predicate Stops(m: Motion, f: Forces, dt: real, libm: Libm)
  {
    Speed(IntegratedVelocity(m, f, dt), libm) < 0.5 && f.throttle == 0.0
  }

  /** The second half of `update`: the Euler step for velocity, the speed,
      the low-speed stop, the yaw and heading step and the position step,
      from the tick's forces `f` and its new steer. */
  function Integrate(m: Motion, steer: real, steerAngle: real, f: Forces, inertia: real,
                     dt: real, libm: Libm): Motion
    requires inertia != 0.0
  {
    var v := IntegratedVelocity(m, f, dt);
    var stop := Stops(m, f, dt, libm);
    var velocity := if stop then Zero else v;
    var torque := if stop then 0.0 else f.torque;
    var yawRate := Euler(if stop then 0.0 else m.yawRate, torque / inertia, dt);
    Motion(
      Euler(m.heading, yawRate, dt),
      Vec2(Euler(m.position.x, velocity.x, dt), Euler(m.position.y, velocity.y, dt)),
      velocity, f.velocityC, f.accel, f.accelC,
      if stop then 0.0 else Speed(v, libm),
      yawRate, steer, steerAngle)
  }

  /** `Integrate` reads only the velocity, heading, position and yaw rate
      of the state it starts from. */
  lemma IntegrateReadsMotionOnly(m: Motion, n: Motion, steer: real, steerAngle: real, f: Forces,
                                 inertia: real, dt: real, libm: Libm)
    requires inertia != 0.0
    requires n.velocity == m.velocity && n.heading == m.heading
    requires n.position == m.position && n.yawRate == m.yawRate
    ensures Integrate(n, steer, steerAngle, f, inertia, dt, libm) == Integrate(m, steer, steerAngle, f, inertia, dt, libm)
  {
  }

  /** A tick from `m` to `r` that took the low-speed stop: no velocity, speed
      or yaw rate left, and heading and position where they were. */
  predicate StoppedFrom(m: Motion, r: Motion)
  {
    r.velocity == Zero && r.absVel == 0.0 && r.yawRate == 0.0 &&
    r.heading == m.heading && r.position == m.position
  }

  /** A tick from `m` to `r` that did not stop, under forces `f`: velocity and
      speed are the integrated ones, the yaw rate grows by
      `torque / inertia * dt`, and heading and position advance by the new yaw
      rate and velocity. */
  predicate IntegratedFrom(m: Motion, f: Forces, inertia: real, dt: real, libm: Libm, r: Motion)
    requires inertia != 0.0
  {
    r.velocity == IntegratedVelocity(m, f, dt) &&
    r.absVel == Speed(r.velocity, libm) &&
    r.yawRate == m.yawRate + f.torque / inertia * dt &&
    r.heading == m.heading + r.yawRate * dt &&
    r.position == Vec2(m.position.x + r.velocity.x * dt, m.position.y + r.velocity.y * dt)
  }

  /** The low-speed stop, in both directions: when the integrated speed is
      below 0.5 m/s and there is no throttle force the tick stops the car;
      otherwise it is a plain Euler step. */
  lemma IntegrateLowSpeedStop(m: Motion, steer: real, steerAngle: real, f: Forces, inertia: real,
                              dt: real, libm: Libm)
    requires inertia != 0.0
    ensures Stops(m, f, dt, libm) ==> StoppedFrom(m, Integrate(m, steer, steerAngle, f, inertia, dt, libm))
    ensures !Stops(m, f, dt, libm) ==> IntegratedFrom(m, f, inertia, dt, libm, Integrate(m, steer, steerAngle, f, inertia, dt, libm))
  {
  }

  /** The forces of the tick from `m`: the force model at the tick's new
      wheel angle. */
  function TickForces(m: Motion, cfg: SteeringCfg, comp: CarConfigComputed, input: CarInputState,
                      dt: real, libm: Libm): Forces
    requires Divisors(cfg, comp)
  {
    Dynamics(m, SteerAngle(cfg.maxSteer, SteerAfter(m.steer, m.absVel, input, dt)), cfg, comp, input, libm)
  }

  /** One call of `update(dt)`, as a function of the old state: the
      specification of `CarSteering.Update`. */
  function Tick(m: Motion, cfg: SteeringCfg, comp: CarConfigComputed, input: CarInputState,
                dt: real, libm: Libm): Motion
    requires Divisors(cfg, comp)
  {
    var steer := SteerAfter(m.steer, m.absVel, input, dt);
    Integrate(m, steer, SteerAngle(cfg.maxSteer, steer), TickForces(m, cfg, comp, input, dt, libm), comp.inertia, dt, libm)
  }

  /** The steer pipeline: the steer a tick leaves is in [-1, 1] when it
      started there, and the wheel angle it gives is within `max_steer`. */
  lemma {:induction false} TickSteerBounded(m: Motion, cfg: SteeringCfg, comp: CarConfigComputed,
                                            input: CarInputState, dt: real, libm: Libm)
    requires Divisors(cfg, comp)
    requires -1.0 <= m.steer <= 1.0 && m.absVel >= 0.0 && dt >= 0.0
    ensures -1.0 <= Tick(m, cfg, comp, input, dt, libm).steer <= 1.0
    ensures Tick(m, cfg, comp, input, dt, libm).steerAngle == SteerAngle(cfg.maxSteer, Tick(m, cfg, comp, input, dt, libm).steer)
    ensures cfg.maxSteer >= 0.0 ==> Abs(Tick(m, cfg, comp, input, dt, libm).steerAngle) <= cfg.maxSteer
  {
    var s := SteerAfter(m.steer, m.absVel, input, dt);
    assert Tick(m, cfg, comp, input, dt, libm).steerAngle == SteerAngle(cfg.maxSteer, s);
  }

  /** The low-speed stop of a whole tick, in both directions, with the
      tick's own forces. */
  lemma LowSpeedStop(m: Motion, cfg: SteeringCfg, comp: CarConfigComputed,
                     input: CarInputState, dt: real, libm: Libm)
    requires Divisors(cfg, comp)
    ensures Stops(m, TickForces(m, cfg, comp, input, dt, libm), dt, libm) ==>
              StoppedFrom(m, Tick(m, cfg, comp, input, dt, libm))
    ensures !Stops(m, TickForces(m, cfg, comp, input, dt, libm), dt, libm) ==>
              IntegratedFrom(m, TickForces(m, cfg, comp, input, dt, libm), comp.inertia, dt, libm, Tick(m, cfg, comp, input, dt, libm))
  {
    var steer := SteerAfter(m.steer, m.absVel, input, dt);
    var f := TickForces(m, cfg, comp, input, dt, libm);
    assert Tick(m, cfg, comp, input, dt, libm) == Integrate(m, steer, SteerAngle(cfg.maxSteer, steer), f, comp.inertia, dt, libm);
    IntegrateLowSpeedStop(m, steer, SteerAngle(cfg.maxSteer, steer), f, comp.inertia, dt, libm);
  }

  /** Without throttle input the throttle force is zero, so a tick ending
      below 0.5 m/s always stops the car. */
  lemma NoThrottleSlowTickStops(m: Motion, cfg: SteeringCfg, comp: CarConfigComputed,
                                input: CarInputState, dt: real, libm: Libm)
    requires Divisors(cfg, comp) && input.throttle == 0.0
    requires Speed(IntegratedVelocity(m, TickForces(m, cfg, comp, input, dt, libm), dt), libm) < 0.5
    ensures Tick(m, cfg, comp, input, dt, libm).velocity == Zero
    ensures Tick(m, cfg, comp, input, dt, libm).absVel == 0.0
    ensures Tick(m, cfg, comp, input, dt, libm).yawRate == 0.0
  {
    LowSpeedStop(m, cfg, comp, input, dt, libm);
  }

  /** A car at rest: not moving, not turning, wheels straight. */
  predicate AtRest(m: Motion)
  {
    m.velocity == Zero && m.yawRate == 0.0 && m.steer == 0.0
  }

  /** The grip and the brake force are not negative, so that a zero slip
      gives zero lateral force and no brake input gives zero brake force. */
  predicate NonNegativeLimits(cfg: SteeringCfg)
  {
    cfg.tireGrip >= 0.0 && cfg.brakeForce >= 0.0
  }

  /** A car at rest with straight wheels and no input feels no force. */
  lemma {:induction false} RestForcesVanish(m: Motion, cfg: SteeringCfg, comp: CarConfigComputed, libm: Libm)
    requires Divisors(cfg, comp) && NonNegativeLimits(cfg) && libm.atan2(0.0, 0.0) == 0.0
    requires AtRest(m)
    ensures Dynamics(m, 0.0, cfg, comp, NeutralInput, libm) == Forces(Zero, Zero, Zero, 0.0, 0.0)
  {
    var sn := libm.sin(m.heading);
    var cs := libm.cos(m.heading);
    var vc := ToLocal(m.velocity, sn, cs);
    assert vc == Zero;
    var loads := Loads(cfg, comp, m.accelC.x);
    assert cfg.cgToFrontAxle * m.yawRate == 0.0 && -cfg.cgToRearAxle * m.yawRate == 0.0;
    assert Abs(vc.x) == 0.0 && Signum(vc.x) * 0.0 == 0.0;
    var slipFront := libm.atan2(vc.y + cfg.cgToFrontAxle * m.yawRate, Abs(vc.x)) - Signum(vc.x) * 0.0;
    assert slipFront == 0.0;
    var slipRear := libm.atan2(vc.y + -cfg.cgToRearAxle * m.yawRate, Abs(vc.x));
    assert slipRear == 0.0;
    assert LateralForce(cfg.cornerStiffnessFront, slipFront, cfg.tireGrip, loads.front) == 0.0;
    assert LateralForce(cfg.cornerStiffnessRear, slipRear, RearGrip(cfg, 0.0), loads.rear) == 0.0;
    assert CombinedBrake(NeutralInput, cfg) == 0.0;
    assert ToWorld(Zero, sn, cs) == Zero;
  }

  /** A tick with no input leaves a car at rest where it is, provided
      `atan2(0, 0) == 0` (as IEEE 754 specifies) and the limits are not negative. */
  lemma {:induction false} RestTickStaysAtRest(m: Motion, cfg: SteeringCfg, comp: CarConfigComputed, dt: real, libm: Libm)
    requires Divisors(cfg, comp) && NonNegativeLimits(cfg) && libm.atan2(0.0, 0.0) == 0.0
    requires AtRest(m)
    ensures AtRest(Tick(m, cfg, comp, NeutralInput, dt, libm))
    ensures Tick(m, cfg, comp, NeutralInput, dt, libm).position == m.position
    ensures Tick(m, cfg, comp, NeutralInput, dt, libm).heading == m.heading
  {
    var steer := SteerAfter(m.steer, m.absVel, NeutralInput, dt);
    assert steer == 0.0;
    assert SteerAngle(cfg.maxSteer, steer) == 0.0;
    RestForcesVanish(m, cfg, comp, libm);
    var f := Forces(Zero, Zero, Zero, 0.0, 0.0);
    assert IntegratedVelocity(m, f, dt) == Zero;
    assert 0.0 / comp.inertia * dt == 0.0;
  }

  /** One tick's commands: the inputs set before `update`, and its `dt`. */
  datatype Control = Control(input: CarInputState, dt: real)

  /** A sequence of ticks, each from the state the previous one left. */
  function Run(m: Motion, cfg: SteeringCfg, comp: CarConfigComputed, ticks: seq<Control>, libm: Libm): Motion
    requires Divisors(cfg, comp)
    decreases |ticks|
  {
    if ticks == [] then m
    else Run(Tick(m, cfg, comp, ticks[0].input, ticks[0].dt, libm), cfg, comp, ticks[1..], libm)
  }

  /** Steer clamp: over any sequence of steering commands and non-negative
      time steps, the steer stays in [-1, 1] and the wheel angle within
      `max_steer`. */
  lemma {:induction false} RunSteerBounded(m: Motion, cfg: SteeringCfg, comp: CarConfigComputed,
                                           ticks: seq<Control>, libm: Libm)
    requires Divisors(cfg, comp) && libm.SqrtNonNegative() && cfg.maxSteer >= 0.0
    requires -1.0 <= m.steer <= 1.0 && m.absVel >= 0.0
    requires forall i :: 0 <= i < |ticks| ==> ticks[i].dt >= 0.0
    ensures -1.0 <= Run(m, cfg, comp, ticks, libm).steer <= 1.0
    ensures ticks != [] ==> Abs(Run(m, cfg, comp, ticks, libm).steerAngle) <= cfg.maxSteer
    decreases |ticks|
  {
    if ticks != [] {
      var n := Tick(m, cfg, comp, ticks[0].input, ticks[0].dt, libm);
      TickSteerBounded(m, cfg, comp, ticks[0].input, ticks[0].dt, libm);
      assert n.absVel >= 0.0;
      assert forall i :: 0 <= i < |ticks[1..]| ==> ticks[1..][i].dt >= 0.0 by {
        forall i | 0 <= i < |ticks[1..]| ensures ticks[1..][i].dt >= 0.0 {
          assert ticks[1..][i] == ticks[i + 1];
        }
      }
      RunSteerBounded(n, cfg, comp, ticks[1..], libm);
    }
  }

  /** Rest invariance: from rest and with no commands, any sequence of ticks
      leaves the car at rest at the same position and heading. */
  lemma {:induction false} RunRestStaysAtRest(m: Motion, cfg: SteeringCfg, comp: CarConfigComputed,
                                              ticks: seq<Control>, libm: Libm)
    requires Divisors(cfg, comp) && NonNegativeLimits(cfg) && libm.atan2(0.0, 0.0) == 0.0
    requires AtRest(m)
    requires forall i :: 0 <= i < |ticks| ==> ticks[i].input == NeutralInput
    ensures AtRest(Run(m, cfg, comp, ticks, libm))
    ensures Run(m, cfg, comp, ticks, libm).position == m.position
    ensures Run(m, cfg, comp, ticks, libm).heading == m.heading
    decreases |ticks|
  {
    if ticks != [] {
      RestTickStaysAtRest(m, cfg, comp, ticks[0].dt, libm);
      var n := Tick(m, cfg, comp, NeutralInput, ticks[0].dt, libm);
      assert forall i :: 0 <= i < |ticks[1..]| ==> ticks[1..][i].input == NeutralInput by {
        forall i | 0 <= i < |ticks[1..]| ensures ticks[1..][i].input == NeutralInput {
          assert ticks[1..][i] == ticks[i + 1];
        }
      }
      RunRestStaysAtRest(n, cfg, comp, ticks[1..], libm);
    }
  }

  /** `CarSteering`: configuration, derived constants, pending inputs and the
      motion state, updated in place by the setters and by `update`. */
  class CarSteering {
    var cfg: SteeringCfg
    var input: CarInputState
    var comp: CarConfigComputed

    var heading: real       // rad
    var position: Vec2      // m, world frame
    var velocity: Vec2      // m/s, world frame
    var velocityC: Vec2     // m/s, car frame (x forward, y sideways)
    var accel: Vec2         // world frame
    var accelC: Vec2        // car frame
    var absVel: real        // m/s
    var yawRate: real       // rad/s
    var steer: real         // smoothed, attenuated steer in -1..1
    var steerAngle: real    // front wheel angle, -maxSteer..maxSteer

    /** The derived constants are those of the configuration, and the
        divisions of `update` are defined. */
    ghost predicate Valid()
      reads this
    {
      Nondegenerate(cfg) && comp == FromConfig(cfg)
    }

    function State(): Motion
      reads this
    {
      Motion(heading, position, velocity, velocityC, accel, accelC, absVel, yawRate, steer, steerAngle)
    }

    /** `CarSteering::new`: the derived constants computed once, the car at
        `position`, everything else zero. */
    constructor (cfg: SteeringCfg, position: Vec2)
      requires Nondegenerate(cfg)
      ensures Valid() && this.cfg == cfg && input == NeutralInput
      ensures State() == Motion(0.0, position, Zero, Zero, Zero, Zero, 0.0, 0.0, 0.0, 0.0)
    {
      this.cfg := cfg;
      comp := FromConfig(cfg);
      input := NeutralInput;
      heading := 0.0;
      this.position := position;
      velocity, velocityC, accel, accelC := Zero, Zero, Zero, Zero;
      absVel, yawRate, steer, steerAngle := 0.0, 0.0, 0.0, 0.0;
    }

    /** `accelerate`: assert the throttle for this tick. */
    method Accelerate(dt: real)
      modifies this`input
      ensures input == old(input).(throttle := 1.0)
    {
      input := input.(throttle := 1.0);
    }

    /** `brake`: assert the foot brake for this tick. */
    method Brake(dt: real)
      modifies this`input
      ensures input == old(input).(brake := 1.0)
    {
      input := input.(brake := 1.0);
    }

    /** `ebrake`: assert the hand brake for this tick. */
    method Ebrake(dt: real)
      modifies this`input
      ensures input == old(input).(ebrake := 1.0)
    {
      input := input.(ebrake := 1.0);
    }

    /** `steer_left`: assert left steering for this tick. */
    method SteerLeft(dt: real)
      modifies this`input
      ensures input == old(input).(left := 1.0)
    {
      input := input.(left := 1.0);
    }

    /** `steer_right`: assert right steering for this tick. */
    method SteerRight(dt: real)
      modifies this`input
      ensures input == old(input).(right := 1.0)
    {
      input := input.(right := 1.0);
    }

    /** `update(dt)`: advance the car by one tick and clear the inputs. */
    method Update(dt: real, libm: Libm)
      requires Valid()
      modifies this
      ensures Valid() && cfg == old(cfg) && comp == old(comp)
      ensures State() == Tick(old(State()), cfg, comp, old(input), dt, libm)
      ensures input == NeutralInput
      ensures -1.0 <= old(steer) <= 1.0 && old(absVel) >= 0.0 && dt >= 0.0 ==> -1.0 <= steer <= 1.0
    {
      var m := State();
      var steerInput := input.right - input.left;
      steer := SmoothSteer(steer, steerInput, dt);
      steer := SafeSteer(steer, absVel);
      steerAngle := SteerAngle(cfg.maxSteer, steer);

      var f := Dynamics(m, steerAngle, cfg, comp, input, libm);
      assert Tick(m, cfg, comp, input, dt, libm) == Integrate(m, steer, steerAngle, f, comp.inertia, dt, libm);
      IntegrateReadsMotionOnly(m, State(), steer, steerAngle, f, comp.inertia, dt, libm);
      ApplyForces(f, dt, libm);
      input := NeutralInput;
    }

    /** The second half of `update`: store the tick's forces, integrate
        velocity, apply the low-speed stop, and integrate the yaw rate,
        heading and position. */
    method ApplyForces(f: Forces, dt: real, libm: Libm)
      requires comp.inertia != 0.0
      modifies this
      ensures cfg == old(cfg) && comp == old(comp) && input == old(input)
      ensures State() == Integrate(old(State()), old(steer), old(steerAngle), f, comp.inertia, dt, libm)
    {
      var v := Vec2(Euler(velocity.x, f.accel.x, dt), Euler(velocity.y, f.accel.y, dt));
      var speed := Speed(v, libm);
      var angularTorque := f.torque;
      var yaw := yawRate;
      if speed < 0.5 && f.throttle == 0.0 {
        v := Zero;
        speed := 0.0;
        angularTorque := 0.0;
        yaw := 0.0;
      }
      yaw := Euler(yaw, angularTorque / comp.inertia, dt);

      velocityC, accelC, accel := f.velocityC, f.accelC, f.accel;
      velocity, absVel, yawRate := v, speed, yaw;
      heading := Euler(heading, yawRate, dt);
      position := Vec2(Euler(position.x, velocity.x, dt), Euler(position.y, velocity.y, dt));
    }
  }
}
