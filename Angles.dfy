/** The camera angle clamp: a one-shot correction by a full turn, then a hard clamp. */
module Angles {

  /** The largest finite single-precision value; the yaw clamp uses it and its
      negation as bounds, which leaves yaw effectively unclamped. */
  const FloatMax: real := 340282346638528859811704183484516925440.0

  /** The engine's clamp: the lower bound is tested first, so it wins when
      the bounds are given in the wrong order. */
  function Clamp(value: real, min: real, max: real): (r: real)
    ensures value < min ==> r == min
    ensures min <= value && value > max ==> r == max
    ensures min <= max ==> min <= r <= max
    ensures min <= value <= max ==> r == value
  {
    if value < min then min else if value > max then max else value
  }

  /** One correction by 360 degrees towards zero when the angle lies beyond a
      full turn (not a modulo), then a clamp to [min, max]. */
  function ClampAngle(angle: real, min: real, max: real): (r: real)
    ensures min <= max ==> min <= r <= max
    // an angle that needs no correction and lies in range is returned as it is
    ensures -360.0 <= angle <= 360.0 && min <= angle <= max ==> r == angle
    // within two turns one correction suffices to land within one turn
    ensures -720.0 <= angle <= 720.0 && min <= -360.0 && 360.0 <= max ==> -360.0 <= r <= 360.0
    // beyond a full turn exactly one correction by 360 is made before the clamp
    ensures angle > 360.0 ==> r == Clamp(angle - 360.0, min, max)
    ensures angle < -360.0 ==> r == Clamp(angle + 360.0, min, max)
    ensures -360.0 <= angle <= 360.0 ==> r == Clamp(angle, min, max)
  {
    var a := if angle < -360.0 then angle + 360.0 else angle;
    var b := if a > 360.0 then a - 360.0 else a;
    Clamp(b, min, max)
  }

  /** Clamping an already clamped angle changes nothing, provided the range
      lies within one turn (as the pitch range does). */
  lemma ClampAngleIdempotent(angle: real, min: real, max: real)
    requires min <= max
    requires -360.0 <= min && max <= 360.0
    ensures ClampAngle(ClampAngle(angle, min, max), min, max) == ClampAngle(angle, min, max)
  {
  }

  /** With the yaw bounds the clamp is not idempotent: 800 becomes 440, which
      a second application turns into 80. */
  lemma ClampAngleNotIdempotentForYawBounds()
    ensures ClampAngle(800.0, -FloatMax, FloatMax) == 440.0
    ensures ClampAngle(ClampAngle(800.0, -FloatMax, FloatMax), -FloatMax, FloatMax) == 80.0
  {
  }

  /** One increment of at most a full turn keeps a yaw that starts within one
      turn within one turn, under the yaw bounds. */
  lemma YawStepStaysWithinOneTurn(yaw: real, increment: real)
    requires -360.0 <= yaw <= 360.0
    requires -360.0 <= increment <= 360.0
    ensures -360.0 <= ClampAngle(yaw + increment, -FloatMax, FloatMax) <= 360.0
  {
  }
}
