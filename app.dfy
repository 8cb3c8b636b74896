/** The kinematic update of src/app.rs, the loop the program's `main` drives:
    turning at 2 rad/s and moving at 100 units/s along the current rotation,
    under the held-key flags of `InputState`. */
module App {
  import opened RealMath
  import opened InputState

  /** The guard of the `+= 2.0 * dt` turn. */
  predicate TurnsUp(k: Keys)
  {
    (k.forward && k.right) || (k.back && k.left)
  }

  /** The guard of the `-= 2.0 * dt` turn. */
  predicate TurnsDown(k: Keys)
  {
    (k.forward && k.left) || (k.back && k.right)
  }

  /** The rotation after one tick of `dt` seconds. */
  function RotationAfter(rotation: real, dt: real, k: Keys): (r: real)
    ensures TurnsUp(k) && !TurnsDown(k) ==> r == rotation + 2.0 * dt
    ensures TurnsDown(k) && !TurnsUp(k) ==> r == rotation - 2.0 * dt
    ensures TurnsUp(k) == TurnsDown(k) ==> r == rotation
    ensures !k.left && !k.right ==> r == rotation
  {
    var turned := if TurnsUp(k) then rotation + 2.0 * dt else rotation;
    if TurnsDown(k) then turned - 2.0 * dt else turned
  }

  /** The displacement of one tick driven forward along `rotation`. */
  function Step(dt: real, rotation: real, libm: Libm): Vec2
  {
    Vec2(100.0 * dt * libm.cos(rotation), 100.0 * dt * libm.sin(rotation))
  }

  /** The position after one tick, moving along `rotation` (the rotation
      already updated by this tick). */
  function PositionAfter(p: Vec2, rotation: real, dt: real, k: Keys, libm: Libm): (r: Vec2)
    ensures !k.forward && !k.back ==> r == p
    ensures k.forward && k.back ==> r == p
    ensures k.forward && !k.back ==>
              r == Vec2(p.x + Step(dt, rotation, libm).x, p.y + Step(dt, rotation, libm).y)
    ensures k.back && !k.forward ==>
              r == Vec2(p.x - Step(dt, rotation, libm).x, p.y - Step(dt, rotation, libm).y)
  {
    var d := Step(dt, rotation, libm);
    var ahead := if k.forward then Vec2(p.x + d.x, p.y + d.y) else p;
    if k.back then Vec2(ahead.x - d.x, ahead.y - d.y) else ahead
  }

  /** Holding forward moves the car along the rotation it has after this
      tick's turn, not the one it had before. */
  lemma MovesAlongNewRotation(rotation: real, p: Vec2, dt: real, k: Keys, libm: Libm)
    requires k.forward && !k.back && k.right && !k.left
    ensures RotationAfter(rotation, dt, k) == rotation + 2.0 * dt
    ensures PositionAfter(p, RotationAfter(rotation, dt, k), dt, k, libm)
            == Vec2(p.x + 100.0 * dt * libm.cos(rotation + 2.0 * dt),
                    p.y + 100.0 * dt * libm.sin(rotation + 2.0 * dt))
  {
  }

  /** The turn and the move over a tick leave nothing behind with no key held. */
  lemma IdleTickChangesNothing(rotation: real, p: Vec2, dt: real, libm: Libm)
    ensures RotationAfter(rotation, dt, NoKeys) == rotation
    ensures PositionAfter(p, RotationAfter(rotation, dt, NoKeys), dt, NoKeys, libm) == p
  {
  }

  /** `App`, without its graphics back end: the rotation and position of the
      square it draws. */
  class App {
    var rotation: real
    var position: Vec2

    /** `App::new`: rotation 0 at the origin. */
    constructor ()
      ensures rotation == 0.0 && position == Zero
    {
      rotation := 0.0;
      position := Zero;
    }

    /** `App::update`: turn first, then move along the new rotation. */
    method Update(dt: real, input: InputState, libm: Libm)
      modifies this
      ensures rotation == RotationAfter(old(rotation), dt, input.Snapshot())
      ensures position == PositionAfter(old(position), rotation, dt, input.Snapshot(), libm)
    {
      if (input.forward && input.right) || (input.back && input.left) {
        rotation := rotation + 2.0 * dt;
      }
      if (input.forward && input.left) || (input.back && input.right) {
        rotation := rotation - 2.0 * dt;
      }
      var d := Step(dt, rotation, libm);
      if input.forward {
        position := position.(x := position.x + d.x);
        position := position.(y := position.y + d.y);
      }
      if input.back {
        position := position.(x := position.x - d.x);
        position := position.(y := position.y - d.y);
      }
    }
  }
}
