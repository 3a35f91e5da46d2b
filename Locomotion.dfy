/** Ground locomotion: target speed, the deadband around it, and the smoothed
    speed and animation blend. */
module Locomotion {
  import opened Types

  /** Half-width of the window in which the speed snaps to its target. */
  const SpeedOffset: real := 0.1

  function Abs(x: real): real { if x < 0.0 then -x else x }
  function Min(a: real, b: real): real { if a <= b then a else b }
  function Max(a: real, b: real): real { if a <= b then b else a }

  /** `x` lies between `a` and `b`, in either order. */
  predicate Between(a: real, b: real, x: real) {
    Min(a, b) <= x <= Max(a, b)
  }

  function Clamp01(t: real): (r: real)
    ensures 0.0 <= r <= 1.0
    ensures 0.0 <= t <= 1.0 ==> r == t
    ensures t < 0.0 ==> r == 0.0
    ensures t > 1.0 ==> r == 1.0
  {
    if t < 0.0 then 0.0 else if t > 1.0 then 1.0 else t
  }

  /** A distance scaled by an interpolation parameter. */
  function Scale(d: real, u: real): real { d * u }

  /** The engine's interpolation with the parameter clamped to [0, 1]. */
  function Lerp(a: real, b: real, t: real): (r: real)
    ensures Between(a, b, r)
    ensures t <= 0.0 ==> r == a
    ensures t >= 1.0 ==> r == b
  {
    ScaleWithinUnit(b - a, Clamp01(t));
    a + Scale(b - a, Clamp01(t))
  }

  /** Scaling by a parameter in [0, 1] keeps the sign and does not grow the distance. */
  lemma ScaleWithinUnit(d: real, u: real)
    requires 0.0 <= u <= 1.0
    ensures 0.0 <= d ==> 0.0 <= Scale(d, u) <= d
    ensures d <= 0.0 ==> d <= Scale(d, u) <= 0.0
    ensures u == 0.0 ==> Scale(d, u) == 0.0
    ensures u == 1.0 ==> Scale(d, u) == d
  {
    assert d - d * u == d * (1.0 - u);
  }

  /** Each interpolation step keeps the fraction 1 - clamp01(t) of the
      distance to the goal: the approach is exponential, never an overshoot. */
  lemma LerpShrinksDistance(a: real, b: real, t: real)
    ensures Abs(Lerp(a, b, t) - b) == (1.0 - Clamp01(t)) * Abs(a - b)
  {
    var u := Clamp01(t);
    assert Lerp(a, b, t) - b == (a - b) * (1.0 - u);
    if a < b {
      assert (a - b) * (1.0 - u) <= 0.0;
      assert Abs((a - b) * (1.0 - u)) == (b - a) * (1.0 - u);
    } else {
      assert (a - b) * (1.0 - u) >= 0.0;
    }
  }

  /** Round to the nearest integer, ties to the even one (the engine's rounding). */
  function RoundHalfEven(k: real): (n: int)
    ensures Abs(n as real - k) <= 0.5
    ensures k == k.Floor as real ==> n == k.Floor
  {
    var f := k.Floor;
    var frac := k - f as real;
    if frac < 0.5 then f
    else if frac > 0.5 then f + 1
    else if f % 2 == 0 then f
    else f + 1
  }

  /** Rounding to three decimal places: `Round(x * 1000) / 1000`. */
  function Round3(x: real): (r: real)
    ensures Abs(r - x) <= 0.0005
  {
    RoundHalfEven(x * 1000.0) as real / 1000.0
  }

  /** The speed the character aims for: zero without movement input,
      otherwise the sprint or the walk speed. */
  function TargetSpeed(c: Config, movement: Vec2, sprint: bool): (r: real)
    ensures r == 0.0 || r == c.walkSpeed || r == c.sprintSpeed
    ensures IsZero(movement) ==> r == 0.0
    ensures !IsZero(movement) ==> r == (if sprint then c.sprintSpeed else c.walkSpeed)
  {
    var target := if sprint then c.sprintSpeed else c.walkSpeed;
    if IsZero(movement) then 0.0 else target
  }

  /** The input magnitude: the stick deflection for analog input, otherwise 1. */
  function InputMagnitude(c: Config, movementMagnitude: real): real {
    if c.analogMovement then movementMagnitude else 1.0
  }

  /** The current speed lies outside the deadband `[target - 0.1, target + 0.1]`. */
  predicate OutsideDeadband(current: real, target: real) {
    current < target - SpeedOffset || current > target + SpeedOffset
  }

  lemma OutsideDeadbandIsDistance(current: real, target: real)
    ensures OutsideDeadband(current, target) <==> Abs(current - target) > SpeedOffset
  {
  }

  /** The speed the character approaches outside the deadband: the target
      scaled by the input magnitude. */
  function ScaledTarget(target: real, magnitude: real): real {
    target * magnitude
  }

  /** The locomotion state that Move updates. */
  datatype MotionState = MotionState(speed: real, animationBlend: real, targetRotation: real)

  /** The new speed: snapped to the target inside the deadband, otherwise
      interpolated from the current speed towards the target scaled by the
      input magnitude, and rounded to three decimals. */
  function NextSpeed(current: real, target: real, magnitude: real, t: real): (r: real)
    // the deadband snaps the speed to the target exactly
    ensures !OutsideDeadband(current, target) ==> r == target
    // outside it the speed lies between the current speed and target * magnitude, up to the rounding
    ensures OutsideDeadband(current, target) ==>
              Abs(r - Lerp(current, ScaledTarget(target, magnitude), t)) <= 0.0005
    ensures OutsideDeadband(current, target) ==>
              Min(current, ScaledTarget(target, magnitude)) - 0.0005 <= r <= Max(current, ScaledTarget(target, magnitude)) + 0.0005
  {
    if OutsideDeadband(current, target) then Round3(Lerp(current, ScaledTarget(target, magnitude), t)) else target
  }

  /** NextSpeed unfolded into its two branches. */
  lemma NextSpeedBranches(current: real, target: real, magnitude: real, t: real)
    ensures OutsideDeadband(current, target) ==> NextSpeed(current, target, magnitude, t) == Round3(Lerp(current, ScaledTarget(target, magnitude), t))
    ensures !OutsideDeadband(current, target) ==> NextSpeed(current, target, magnitude, t) == target
  {
  }

  /** The character's target heading: the input direction relative to the
      camera while there is movement input, otherwise the previous heading. */
  function NextRotation(previous: real, movement: Vec2, inputHeading: real, cameraYaw: real): (r: real)
    ensures IsZero(movement) ==> r == previous
    ensures !IsZero(movement) ==> r == inputHeading + cameraYaw
  {
    if IsZero(movement) then previous else inputHeading + cameraYaw
  }

  /** One Move step on the locomotion state.  `currentHorizontalSpeed` is the
      body's horizontal speed after the previous move, `movementMagnitude` the
      length of the movement input, `inputHeading` its direction in degrees and
      `cameraYaw` the main camera's yaw.  The previous speed is not used; the
      blend approaches the target speed itself, never snapped and never scaled
      by the input magnitude. */
  function MotionStep(c: Config, s: MotionState, movement: Vec2, movementMagnitude: real,
                      sprint: bool, currentHorizontalSpeed: real,
                      inputHeading: real, cameraYaw: real, dt: real): (r: MotionState)
    // the speed follows the deadband rule towards the target scaled by the input magnitude
    ensures r.speed == NextSpeed(currentHorizontalSpeed, TargetSpeed(c, movement, sprint),
                                 InputMagnitude(c, movementMagnitude), dt * c.speedChangeRate)
    // the blend approaches the unscaled target speed, without a deadband
    ensures r.animationBlend == Lerp(s.animationBlend, TargetSpeed(c, movement, sprint), dt * c.speedChangeRate)
    ensures r.targetRotation == NextRotation(s.targetRotation, movement, inputHeading, cameraYaw)
    // without movement input the heading is kept, the blend heads for zero and
    // a body within the deadband around rest stops exactly
    ensures IsZero(movement) ==>
              r.targetRotation == s.targetRotation
              && r.animationBlend == Lerp(s.animationBlend, 0.0, dt * c.speedChangeRate)
              && (Abs(currentHorizontalSpeed) <= SpeedOffset ==> r.speed == 0.0)
  {
    MotionState(
      NextSpeed(currentHorizontalSpeed, TargetSpeed(c, movement, sprint),
                InputMagnitude(c, movementMagnitude),
                dt * c.speedChangeRate),
      Lerp(s.animationBlend, TargetSpeed(c, movement, sprint), dt * c.speedChangeRate),
      NextRotation(s.targetRotation, movement, inputHeading, cameraYaw))
  }

  /** Without movement input the target is zero: a body within the deadband
      stops exactly, and the blend does not move away from zero. */
  lemma IdleSettles(c: Config, s: MotionState, movement: Vec2, movementMagnitude: real,
                    sprint: bool, currentHorizontalSpeed: real,
                    inputHeading: real, cameraYaw: real, dt: real)
    requires IsZero(movement)
    ensures var r := MotionStep(c, s, movement, movementMagnitude, sprint, currentHorizontalSpeed, inputHeading, cameraYaw, dt);
            (Abs(currentHorizontalSpeed) <= SpeedOffset ==> r.speed == 0.0)
            && Abs(r.animationBlend) <= Abs(s.animationBlend)
            && (0.0 < dt * c.speedChangeRate && s.animationBlend != 0.0 ==> Abs(r.animationBlend) < Abs(s.animationBlend))
  {
    var r := MotionStep(c, s, movement, movementMagnitude, sprint, currentHorizontalSpeed, inputHeading, cameraYaw, dt);
    assert TargetSpeed(c, movement, sprint) == 0.0;
    LerpShrinksDistance(s.animationBlend, 0.0, dt * c.speedChangeRate);
    var u := Clamp01(dt * c.speedChangeRate);
    assert Abs(r.animationBlend) == (1.0 - u) * Abs(s.animationBlend);
    if 0.0 < dt * c.speedChangeRate && s.animationBlend != 0.0 {
      assert 0.0 < u;
      assert (1.0 - u) * Abs(s.animationBlend) < Abs(s.animationBlend);
    }
  }
}
