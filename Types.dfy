/** Values shared by every part of the third-person controller model. */
module Types {

  datatype Option<T> = None | Some(value: T)

  /** A two-component input vector (movement stick, look delta). */
  datatype Vec2 = Vec2(x: real, y: real)
  {
    function SqrMagnitude(): real { x * x + y * y }
  }

  /** A world-space point (aim target, projectile spawn point). */
  datatype Point = Point(x: real, y: real, z: real)

  /** The engine's tolerance for comparing two-component vectors. */
  const VectorEpsilon: real := 0.00001

  /** `v == Vector2.zero` as the engine evaluates it: the squared distance
      to the origin is below the square of the vector tolerance. */
  predicate IsZero(v: Vec2) {
    v.SqrMagnitude() < VectorEpsilon * VectorEpsilon
  }

  /** Signals the controller sends to the animation graph. */
  datatype AnimSignal =
    | SetSpeed(speed: real)
    | SetMotionSpeed(motionSpeed: real)
    | SetGrounded(grounded: bool)
    | SetJump(jump: bool)
    | SetFreeFall(freeFall: bool)
    | PlayFlip

  /** The tuning values set in the inspector; they do not change while the game runs. */
  datatype Config = Config(
    walkSpeed: real,
    sprintSpeed: real,
    speedChangeRate: real,
    jumpHeight: real,
    gravity: real,
    terminalVelocity: real,
    jumpCooldown: real,
    fallTimeout: real,
    doubleJumpTimeout: real,
    topClamp: real,
    bottomClamp: real,
    cameraAngleOverride: real,
    lockCameraPosition: bool,
    normalSensitivity: real,
    aimSensitivity: real,
    analogMovement: bool)

  /** `v` is the launch speed `Sqrt(jumpHeight * -2 * gravity)` of a jump. */
  predicate IsLaunchSpeed(c: Config, v: real) {
    v >= 0.0 && v * v == c.jumpHeight * -2.0 * c.gravity
  }
}
