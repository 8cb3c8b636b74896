/** Real-number vocabulary shared by the car model, the kinematic app and the
    track: two-component vectors, the `f64` helpers the Rust code calls
    (`abs`, `min`, `max`, `signum`), and the transcendental functions of the
    platform's math library, which the model does not interpret. */
module RealMath {

  /** A `Vec2d` (`[f64; 2]`): index 0 is `x`, index 1 is `y`. */
  datatype Vec2 = Vec2(x: real, y: real)

  const Zero: Vec2 := Vec2(0.0, 0.0)

  function Abs(x: real): (r: real)
    ensures r >= 0.0
    ensures r == x || r == -x
  {
    if x < 0.0 then -x else x
  }

  /** `a.min(b)` for ordinary (non-NaN) values. */
  function Min(a: real, b: real): (r: real)
    ensures r <= a && r <= b
    ensures r == a || r == b
  {
    if a <= b then a else b
  }

  /** `a.max(b)` for ordinary (non-NaN) values. */
  function Max(a: real, b: real): (r: real)
    ensures r >= a && r >= b
    ensures r == a || r == b
  {
    if a >= b then a else b
  }

  /** `f64::signum`: 1 for positive numbers and for +0.0, -1 for negative
      numbers. Over the reals zero is +0.0, so `Signum(0.0) == 1.0`. */
  function Signum(x: real): (r: real)
    ensures r == 1.0 || r == -1.0
    ensures r * x == Abs(x)
    ensures x >= 0.0 ==> r == 1.0
  {
    if x < 0.0 then -1.0 else 1.0
  }

  /** `r` lies between 0 and `s`, both included: it has the sign of `s`
      (or is 0) and is no larger in magnitude. */
  predicate BetweenZeroAnd(r: real, s: real)
  {
    (s >= 0.0 ==> 0.0 <= r <= s) && (s <= 0.0 ==> s <= r <= 0.0)
  }

  /** The transcendental functions the simulation calls (`f64::sin`,
      `f64::cos`, `f64::atan2(y, x)` and `f64::sqrt`). They are left
      uninterpreted: the model takes them as a parameter. */
  datatype Libm = Libm(sin: real -> real, cos: real -> real, atan2: (real, real) -> real, sqrt: real -> real)
  {
    /** The only fact about `sqrt` the model relies on: it is never negative. */
    ghost predicate SqrtNonNegative()
    {
      forall x :: sqrt(x) >= 0.0
    }
  }
}
