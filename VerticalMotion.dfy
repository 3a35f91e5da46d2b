/** Vertical motion: gravity, the grounded jump, the double jump and the
    countdown timers that gate them. */
module VerticalMotion {
  import opened Types

  /** The part of the controller's state that JumpAndGravity updates. */
  datatype VerticalState = VerticalState(
    verticalVelocity: real,
    jumpCooldownDelta: real,
    doubleJumpDelta: real,
    fallTimeoutDelta: real,
    doubleJump: bool)

  /** The velocity that keeps a grounded character pressed to the ground. */
  const GroundedVelocity: real := -2.0

  /** A grounded tick with the jump edge and an expired cooldown launches a jump. */
  predicate GroundedJumpFires(s: VerticalState, grounded: bool, jump: bool) {
    grounded && jump && s.jumpCooldownDelta <= 0.0
  }

  /** An airborne tick with the jump edge, an expired window and the double
      jump still available launches the double jump. */
  predicate DoubleJumpFires(s: VerticalState, grounded: bool, jump: bool) {
    !grounded && jump && s.doubleJumpDelta <= 0.0 && s.doubleJump
  }

  /** A countdown timer decreases only while it is not negative, so it stops
      at most one tick's time below zero. */
  function CountDown(t: real, dt: real): (r: real)
    ensures t < 0.0 ==> r == t
    ensures t >= 0.0 ==> r + dt == t
    ensures t >= 0.0 && dt >= 0.0 ==> -dt <= r <= t
  {
    if t >= 0.0 then t - dt else t
  }

  /** The branch part of JumpAndGravity, before gravity is applied.
      `launch` is the jump launch speed. */
  function JumpPhase(c: Config, s: VerticalState, grounded: bool, jump: bool, launch: real, dt: real): (r: VerticalState)
    // grounded ticks reset the fall and double-jump timers and restore the double jump
    ensures grounded ==> r.fallTimeoutDelta == c.fallTimeout && r.doubleJumpDelta == c.doubleJumpTimeout && r.doubleJump
    // on the ground a falling body is pressed down at exactly -2, unless a jump launches it
    ensures grounded ==> r.verticalVelocity ==
                           (if GroundedJumpFires(s, grounded, jump) then launch
                            else if s.verticalVelocity < 0.0 then GroundedVelocity
                            else s.verticalVelocity)
    ensures grounded ==> r.jumpCooldownDelta == CountDown(s.jumpCooldownDelta, dt)
    // airborne: the double jump launches and is consumed, leaving the other timers alone
    ensures DoubleJumpFires(s, grounded, jump) ==>
              r.verticalVelocity == launch && !r.doubleJump
              && r.jumpCooldownDelta == s.jumpCooldownDelta && r.fallTimeoutDelta == s.fallTimeoutDelta
    // airborne without a double jump: cooldown reset, fall timer counted down
    ensures !grounded && !DoubleJumpFires(s, grounded, jump) ==>
              r.verticalVelocity == s.verticalVelocity && r.doubleJump == s.doubleJump
              && r.jumpCooldownDelta == c.jumpCooldown
              && r.fallTimeoutDelta == CountDown(s.fallTimeoutDelta, dt)
    ensures !grounded ==> r.doubleJumpDelta == CountDown(s.doubleJumpDelta, dt)
    // only a grounded tick makes the double jump available
    ensures r.doubleJump ==> grounded || s.doubleJump
  {
    if grounded then
      var pressed := if s.verticalVelocity < 0.0 then GroundedVelocity else s.verticalVelocity;
      VerticalState(
        if jump && s.jumpCooldownDelta <= 0.0 then launch else pressed,
        CountDown(s.jumpCooldownDelta, dt),
        c.doubleJumpTimeout,
        c.fallTimeout,
        true)
    else if jump && s.doubleJumpDelta <= 0.0 && s.doubleJump then
      s.(verticalVelocity := launch, doubleJump := false,
         doubleJumpDelta := CountDown(s.doubleJumpDelta, dt))
    else
      s.(jumpCooldownDelta := c.jumpCooldown,
         fallTimeoutDelta := CountDown(s.fallTimeoutDelta, dt),
         doubleJumpDelta := CountDown(s.doubleJumpDelta, dt))
  }

  /** Gravity: applied only while the velocity is below the terminal velocity. */
  function ApplyGravity(c: Config, v: real, dt: real): (r: real)
    ensures v < c.terminalVelocity ==> r == v + c.gravity * dt
    ensures v >= c.terminalVelocity ==> r == v
  {
    if v < c.terminalVelocity then v + c.gravity * dt else v
  }

  /** One JumpAndGravity step: the branch part, then gravity. */
  function VerticalStep(c: Config, s: VerticalState, grounded: bool, jump: bool, launch: real, dt: real): (r: VerticalState)
    // gravity changes only the velocity, and only when it is below the terminal velocity
    ensures var p := JumpPhase(c, s, grounded, jump, launch, dt);
            r.jumpCooldownDelta == p.jumpCooldownDelta && r.doubleJumpDelta == p.doubleJumpDelta
            && r.fallTimeoutDelta == p.fallTimeoutDelta && r.doubleJump == p.doubleJump
            && (p.verticalVelocity < c.terminalVelocity ==> r.verticalVelocity == p.verticalVelocity + c.gravity * dt)
            && (p.verticalVelocity >= c.terminalVelocity ==> r.verticalVelocity == p.verticalVelocity)
    ensures grounded ==> r.fallTimeoutDelta == c.fallTimeout && r.doubleJumpDelta == c.doubleJumpTimeout && r.doubleJump
    ensures DoubleJumpFires(s, grounded, jump) ==> !r.doubleJump
    ensures r.doubleJump ==> grounded || s.doubleJump
  {
    var p := JumpPhase(c, s, grounded, jump, launch, dt);
    p.(verticalVelocity := ApplyGravity(c, p.verticalVelocity, dt))
  }

  /** VerticalStep unfolded: the branch part, then the guarded gravity update. */
  lemma VerticalStepIsPhaseThenGravity(c: Config, s: VerticalState, grounded: bool, jump: bool, launch: real, dt: real)
    ensures var p := JumpPhase(c, s, grounded, jump, launch, dt);
            VerticalStep(c, s, grounded, jump, launch, dt)
            == p.(verticalVelocity := if p.verticalVelocity < c.terminalVelocity
                                      then p.verticalVelocity + c.gravity * dt
                                      else p.verticalVelocity)
  {
  }

  /** The animation signals JumpAndGravity sends, none without an animator. */
  function JumpSignals(s: VerticalState, grounded: bool, jump: bool, hasAnimator: bool): (r: seq<AnimSignal>)
    ensures !hasAnimator ==> r == []
    ensures PlayFlip in r <==> hasAnimator && DoubleJumpFires(s, grounded, jump)
    ensures SetJump(true) in r <==> hasAnimator && GroundedJumpFires(s, grounded, jump)
    ensures SetFreeFall(true) in r <==>
              hasAnimator && !grounded && !DoubleJumpFires(s, grounded, jump) && s.fallTimeoutDelta < 0.0
    ensures hasAnimator && grounded ==> |r| >= 2 && r[..2] == [SetJump(false), SetFreeFall(false)]
    // grounded: the two clears, then Jump set once when the jump fires
    ensures hasAnimator && grounded ==> |r| == (if GroundedJumpFires(s, grounded, jump) then 3 else 2)
    ensures !grounded ==> |r| <= 1
    // airborne: the flip, the free-fall signal, or nothing at all
    ensures hasAnimator && !grounded ==>
              |r| == (if DoubleJumpFires(s, grounded, jump) || s.fallTimeoutDelta < 0.0 then 1 else 0)
  {
    if !hasAnimator then []
    else if grounded then
      [SetJump(false), SetFreeFall(false)] + (if jump && s.jumpCooldownDelta <= 0.0 then [SetJump(true)] else [])
    else if jump && s.doubleJumpDelta <= 0.0 && s.doubleJump then [PlayFlip]
    else if s.fallTimeoutDelta >= 0.0 then []
    else [SetFreeFall(true)]
  }

  /** A launch from the jump formula leaves the ground upwards at the launch speed. */
  lemma GroundedJumpLaunches(c: Config, s: VerticalState, launch: real, dt: real)
    requires IsLaunchSpeed(c, launch)
    requires s.jumpCooldownDelta <= 0.0
    ensures var p := JumpPhase(c, s, true, true, launch, dt);
            p.verticalVelocity >= 0.0 && p.verticalVelocity * p.verticalVelocity == c.jumpHeight * -2.0 * c.gravity
  {
  }

  /** The gravity guard does not cap the falling speed: with negative gravity,
      a velocity below the terminal velocity keeps decreasing, and one at or
      above it is never accelerated. */
  lemma GravityGuardDoesNotCapFalls(c: Config, v: real, dt: real)
    requires c.gravity < 0.0 && dt > 0.0
    ensures v < c.terminalVelocity ==> ApplyGravity(c, v, dt) < v
    ensures v >= c.terminalVelocity ==> ApplyGravity(c, v, dt) == v
  {
    if v < c.terminalVelocity {
      assert c.gravity * dt < 0.0;
    }
  }

  /** One tick's inputs to the vertical state machine. */
  datatype VerticalTick = VerticalTick(grounded: bool, jump: bool, dt: real)

  /** The state after running the ticks in order. */
  function VerticalRun(c: Config, s: VerticalState, ticks: seq<VerticalTick>, launch: real): VerticalState
    decreases |ticks|
  {
    if ticks == [] then s
    else VerticalRun(c, VerticalStep(c, s, ticks[0].grounded, ticks[0].jump, launch, ticks[0].dt), ticks[1..], launch)
  }

  /** How many double jumps fire while running the ticks. */
  function DoubleJumpCount(c: Config, s: VerticalState, ticks: seq<VerticalTick>, launch: real): nat
    decreases |ticks|
  {
    if ticks == [] then 0
    else
      (if DoubleJumpFires(s, ticks[0].grounded, ticks[0].jump) then 1 else 0)
      + DoubleJumpCount(c, VerticalStep(c, s, ticks[0].grounded, ticks[0].jump, launch, ticks[0].dt), ticks[1..], launch)
  }

  predicate AllAirborne(ticks: seq<VerticalTick>) {
    forall i :: 0 <= i < |ticks| ==> !ticks[i].grounded
  }

  /** Across an uninterrupted airborne run at most one double jump fires, none
      if it was already used, and once used it stays unavailable. */
  lemma {:induction false} AirborneRunAtMostOneDoubleJump(c: Config, s: VerticalState, ticks: seq<VerticalTick>, launch: real)
    requires AllAirborne(ticks)
    ensures DoubleJumpCount(c, s, ticks, launch) + (if VerticalRun(c, s, ticks, launch).doubleJump then 1 else 0)
            <= (if s.doubleJump then 1 else 0)
    ensures DoubleJumpCount(c, s, ticks, launch) <= 1
    ensures !s.doubleJump ==> DoubleJumpCount(c, s, ticks, launch) == 0 && !VerticalRun(c, s, ticks, launch).doubleJump
    decreases |ticks|
  {
    if ticks != [] {
      var t := ticks[0];
      var s1 := VerticalStep(c, s, t.grounded, t.jump, launch, t.dt);
      assert AllAirborne(ticks[1..]) by {
        forall i | 0 <= i < |ticks[1..]| ensures !ticks[1..][i].grounded {
          assert ticks[1..][i] == ticks[i + 1];
        }
      }
      AirborneRunAtMostOneDoubleJump(c, s1, ticks[1..], launch);
      assert !t.grounded;
      assert s1.doubleJump ==> s.doubleJump;
      assert DoubleJumpFires(s, t.grounded, t.jump) ==> s.doubleJump && !s1.doubleJump;
    }
  }

  /** A double jump on an airborne tick, followed by any airborne run, is the
      only double jump of that run. */
  lemma DoubleJumpThenNoMore(c: Config, s: VerticalState, dt: real, rest: seq<VerticalTick>, launch: real)
    requires s.doubleJump && s.doubleJumpDelta <= 0.0
    requires AllAirborne(rest)
    ensures DoubleJumpCount(c, s, [VerticalTick(false, true, dt)] + rest, launch) == 1
    ensures !VerticalRun(c, s, [VerticalTick(false, true, dt)] + rest, launch).doubleJump
  {
    var ticks := [VerticalTick(false, true, dt)] + rest;
    assert ticks[1..] == rest;
    var s1 := VerticalStep(c, s, false, true, launch, dt);
    assert !s1.doubleJump;
    AirborneRunAtMostOneDoubleJump(c, s1, rest, launch);
  }
}
