/** The newest locomotion controller: one immutable record holds everything
    the `PlayerController` and its movement components (`GroundMovement`,
    `JumpMovement`, `CrouchMovement`, `SlideMovement`, `ClimbMovement`) keep
    between ticks, and the functions here are the controller's own policy:
    key latches, the per-state capability table, movement, gravity, ground
    adjustment, the speed limit and drag. */
module Locomotion {
  import opened Vectors
  import opened Timers
  import opened InputLatch
  import SpeedLimit

  datatype State = Grounded | Rising | Falling | Jumping | Crouching | Sliding | Climbing

  /** The serialized settings of the controller and its components. */
  datatype Config = Config(
    gravityScale: real,
    movementSpeed: real,
    groundDrag: real,
    timeToChangeSpeed: real,
    jumpForce: real,
    coyoteTime: real,
    slideBoost: real,
    slideDragRatio: real,
    minimumSlideVelocity: real,
    climbTime: real,
    maxWallLookAngle: real)

  /** The inspector defaults (the jump force of `JumpMovement`). */
  const DefaultConfig: Config := Config(1.0, 5.0, 6.0, 1.0, 20.0, 0.15, 3.0, 0.2, 1.0, 1.0, 30.0)

  /** The speed easing divides by the time to change speed, so it must not
      be zero; any other value, negative included, is allowed. */
  predicate ValidConfig(cfg: Config) {
    cfg.timeToChangeSpeed != 0.0
  }

  /** The downward impulse of crouching and sliding, `-Vector3.up * 5f`. */
  const CrouchPush: Vec3 := Vec3(0.0, -5.0, 0.0)

  /** The rigid body and the `PlayerBody` flags as the controller sees them
      during one fixed tick. `impulse` sums the tick's `AddForce(…, Impulse)`
      calls, which the physics engine applies only after the tick;
      `velocity` is the body's velocity, which `ApplyVelocity` and
      `ApplyVerticalVelocity` overwrite at once. */
  datatype Body = Body(
    velocity: Vec3,
    impulse: Vec3,
    drag: real,
    isCrouching: bool,
    useExtendedCastLength: bool)

  /** What the engine reports at the start of a fixed tick: the ground
      sensor's verdict and adjustment, the slope normal under the body, the
      body's velocity after the last physics step, and the orientation
      transform's forward and right axes. */
  datatype Sensing = Sensing(
    isGrounded: bool,
    groundAdjustment: Vec3,
    slopeNormal: Vec3,
    velocity: Vec3,
    forward: Vec3,
    right: Vec3)

  /** The result of `ClimbMovement.WallCheck`'s sphere cast. */
  datatype WallReading = WallReading(isWallInFront: bool, wallLookAngle: real)

  datatype Controller = Controller(
    state: State,
    jumpKey: Latch,
    jumpKeyIsLocked: bool,
    crouchKey: Latch,
    isExitingCrouch: bool,
    isExitingClimb: bool,
    coyoteTimer: Countdown,
    changeStateTimer: Stopwatch,
    climbTimer: Countdown,
    speedWhenChanged: real,
    currentMaxSpeed: real,
    slopeNormal: Vec3,
    moveInput: Vec3,
    isWallInFront: bool,
    wallLookAngle: real,
    body: Body)

  /** The fields only the input callbacks and the end of the fixed tick
      write. */
  predicate SameKeys(a: Controller, b: Controller) {
    a.jumpKey == b.jumpKey && a.crouchKey == b.crouchKey
  }

  /** `Start`: the machine begins in Falling with idle keys, no exit guards,
      stopped timers, and a zero speed budget. */
  function Init(cfg: Config, body: Body): (c: Controller)
    ensures c.state == Falling && c.jumpKey == Idle && c.crouchKey == Idle && !c.jumpKeyIsLocked
    ensures !c.isExitingCrouch && !c.isExitingClimb
    ensures !c.coyoteTimer.isRunning && c.coyoteTimer.initialTime == cfg.coyoteTime
    ensures c.currentMaxSpeed == 0.0
  {
    Controller(Falling, Idle, false, Idle, false, false,
               NewCountdown(cfg.coyoteTime), NewStopwatch(), NewCountdown(cfg.climbTime),
               0.0, 0.0, Zero, Zero, false, 0.0, body)
  }

  // ---- The per-state capability table (`IFPSState`) ----

  /** `GetMovementSpeedRatio()` of each state. */
  function SpeedRatio(s: State): (r: real)
    ensures 0.0 < r <= 1.0
  {
    match s
    case Grounded => 1.0
    case Jumping => 0.8
    case Falling => 0.8
    case Rising => 0.8
    case Crouching => 0.5
    case Sliding => 0.1
    case Climbing => 0.6
  }

  /** `IsLimitedSpeed()`: true by default; Sliding and Climbing override it. */
  predicate IsLimitedSpeed(s: State) {
    s != Sliding && s != Climbing
  }

  // ---- Input callbacks ----

  /** `HandleJumpKeyInput`. */
  function HandleJumpKeyInput(c: Controller, isPressed: bool): (r: Controller)
    ensures r.jumpKey == Record(c.jumpKey, isPressed)
    ensures r.(jumpKey := c.jumpKey) == c
  {
    c.(jumpKey := Record(c.jumpKey, isPressed))
  }

  /** `HandleCrouchKeyInput`: the same latch discipline as the jump key. */
  function HandleCrouchKeyInput(c: Controller, isPressed: bool): (r: Controller)
    ensures r.crouchKey == Record(c.crouchKey, isPressed)
    ensures r.(crouchKey := c.crouchKey) == c
  {
    c.(crouchKey := Record(c.crouchKey, isPressed))
  }

  /** The move callback: stick input longer than 1 is normalized. */
  function HandleMoveInput(c: Controller, input: Vec3, norm: Norm): (r: Controller)
    ensures r.(moveInput := c.moveInput) == c
    ensures NormAt(norm, input) ==> Dot(r.moveInput, r.moveInput) <= 1.0
    ensures norm(input) <= 1.0 ==> r.moveInput == input
  {
    c.(moveInput := ClampToUnit(input, norm))
  }

  // ---- End-of-tick resets ----

  /** `ResetJumpKeys`: the jump edges and the jump lock are cleared. */
  function ResetJumpKeys(c: Controller): (r: Controller)
    ensures !r.jumpKey.pressed && !r.jumpKey.released && !r.jumpKeyIsLocked
    ensures r.jumpKey.held == c.jumpKey.held && r.crouchKey == c.crouchKey
    ensures r.state == c.state && r.isExitingClimb == c.isExitingClimb && r.isExitingCrouch == c.isExitingCrouch
  {
    c.(jumpKey := ClearEdges(c.jumpKey), jumpKeyIsLocked := false)
  }

  /** `ResetCrouchKeys`: the crouch edges are cleared. */
  function ResetCrouchKeys(c: Controller): (r: Controller)
    ensures !r.crouchKey.pressed && !r.crouchKey.released
    ensures r.crouchKey.held == c.crouchKey.held && r.jumpKey == c.jumpKey && r.jumpKeyIsLocked == c.jumpKeyIsLocked
    ensures r.state == c.state && r.isExitingClimb == c.isExitingClimb && r.isExitingCrouch == c.isExitingCrouch
  {
    c.(crouchKey := ClearEdges(c.crouchKey))
  }

  // ---- Queries ----

  /** `IsCrouching()`: crouch intent, pressed this tick or held. */
  predicate IsCrouching(c: Controller) {
    c.crouchKey.pressed || c.crouchKey.held
  }

  /** The coyote rule: a fresh unlocked jump press while falling within the
      coyote window. */
  predicate IsCoyoteJumpAllowed(c: Controller) {
    c.coyoteTimer.isRunning && c.jumpKey.pressed && !c.jumpKeyIsLocked && c.state == Falling
  }

  /** `GetFlatVelocity`: a velocity without its component along the
      current slope normal. */
  function FlatVelocity(c: Controller, v: Vec3): Vec3 {
    RemoveDot(v, c.slopeNormal)
  }

  /** The flat velocity lies in the slope plane of a unit normal, and adding
      back the component along the normal restores the velocity. */
  lemma FlatVelocityInPlane(c: Controller, v: Vec3)
    requires IsUnit(c.slopeNormal)
    ensures Dot(FlatVelocity(c, v), c.slopeNormal) == 0.0
    ensures Add(FlatVelocity(c, v), Scale(c.slopeNormal, Dot(v, c.slopeNormal))) == v
  {
    RemoveDotOrthogonal(v, c.slopeNormal);
  }

  // ---- Speed budget ----

  /** `StartCoyoteeTimer`. */
  function StartCoyoteTimer(c: Controller): (r: Controller)
    ensures r.coyoteTimer.isRunning && r.coyoteTimer.time == c.coyoteTimer.initialTime
    ensures r.(coyoteTimer := c.coyoteTimer) == c
  {
    c.(coyoteTimer := Start(c.coyoteTimer))
  }

  /** `SetupLerpToDefaultMoveSpeed`: restart the easing clock from the
      current flat speed towards the default movement speed. */
  function SetupLerpToDefaultMoveSpeed(c: Controller, cfg: Config, norm: Norm): (r: Controller)
    ensures r.changeStateTimer.isRunning && r.changeStateTimer.time == 0.0
    ensures r.speedWhenChanged == norm(FlatVelocity(c, c.body.velocity))
    ensures r.currentMaxSpeed == cfg.movementSpeed
    ensures r.(changeStateTimer := c.changeStateTimer, speedWhenChanged := c.speedWhenChanged,
               currentMaxSpeed := c.currentMaxSpeed) == c
  {
    c.(changeStateTimer := StartStopwatch(ResetStopwatch(c.changeStateTimer)),
       speedWhenChanged := norm(FlatVelocity(c, c.body.velocity)),
       currentMaxSpeed := cfg.movementSpeed)
  }

  /** `SetMaxSpeed`. */
  function SetMaxSpeed(c: Controller, v: real): (r: Controller)
    ensures r.currentMaxSpeed == v && r.(currentMaxSpeed := c.currentMaxSpeed) == c
  {
    c.(currentMaxSpeed := v)
  }

  // ---- Per-tick physics policy ----

  /** `CalculateMovementVelocity`: the stick input along the orientation's
      forward and right axes, projected onto the slope plane and normalized,
      at the movement speed. */
  function MovementVelocity(c: Controller, cfg: Config, s: Sensing, norm: Norm): (v: Vec3)
    ensures Dot(c.slopeNormal, c.slopeNormal) >= FloatEpsilon ==> Dot(v, c.slopeNormal) == 0.0
    ensures (c.moveInput.x == 0.0 && c.moveInput.y == 0.0) || cfg.movementSpeed == 0.0 ==> v == Zero
  {
    SlopeMovementInPlane(c.slopeNormal, s.forward, s.right, c.moveInput, cfg.movementSpeed, norm);
    SlopeMovementZero(c.slopeNormal, s.forward, s.right, c.moveInput, cfg.movementSpeed, norm);
    SlopeMovement(c.slopeNormal, s.forward, s.right, c.moveInput, cfg.movementSpeed, norm)
  }

  /** The stick input `input` along the axes `forward` and `right`, each
      projected onto the plane of `n` and normalized, at speed `speed`. */
  function SlopeMovement(n: Vec3, forward: Vec3, right: Vec3, input: Vec3, speed: real, norm: Norm): Vec3 {
    AxisMovement(Normalize(ProjectOnPlane(forward, n), norm), Normalize(ProjectOnPlane(right, n), norm), input, speed)
  }

  /** The stick input along two given axes at speed `speed`. */
  function AxisMovement(f: Vec3, r: Vec3, input: Vec3, speed: real): Vec3 {
    Add(Scale(f, input.y * speed), Scale(r, input.x * speed))
  }

  lemma SlopeMovementInPlane(n: Vec3, forward: Vec3, right: Vec3, input: Vec3, speed: real, norm: Norm)
    ensures Dot(n, n) >= FloatEpsilon ==> Dot(SlopeMovement(n, forward, right, input, speed, norm), n) == 0.0
  {
    if Dot(n, n) >= FloatEpsilon {
      AxisMovementInPlane(n, forward, right, input, speed, norm);
    }
  }

  lemma SlopeMovementZero(n: Vec3, forward: Vec3, right: Vec3, input: Vec3, speed: real, norm: Norm)
    ensures (input.x == 0.0 && input.y == 0.0) || speed == 0.0 ==> SlopeMovement(n, forward, right, input, speed, norm) == Zero
  {
    AxisMovementZero(Normalize(ProjectOnPlane(forward, n), norm), Normalize(ProjectOnPlane(right, n), norm), input, speed);
  }

  lemma AxisMovementZero(f: Vec3, r: Vec3, input: Vec3, speed: real)
    ensures (input.x == 0.0 && input.y == 0.0) || speed == 0.0 ==> AxisMovement(f, r, input, speed) == Zero
  {
    if input.x == 0.0 && input.y == 0.0 {
      ZeroCombination(f, r, 0.0 * speed, 0.0 * speed);
    } else if speed == 0.0 {
      ZeroCombination(f, r, input.y * 0.0, input.x * 0.0);
    }
  }

  lemma AxisMovementInPlane(n: Vec3, forward: Vec3, right: Vec3, input: Vec3, speed: real, norm: Norm)
    requires Dot(n, n) >= FloatEpsilon
    ensures Dot(AxisMovement(Normalize(ProjectOnPlane(forward, n), norm), Normalize(ProjectOnPlane(right, n), norm), input, speed), n) == 0.0
  {
    NormalizedInPlane(ProjectOnPlane(forward, n), n, norm);
    NormalizedInPlane(ProjectOnPlane(right, n), n, norm);
    CombinationInPlane(Normalize(ProjectOnPlane(forward, n), norm), Normalize(ProjectOnPlane(right, n), norm), input, speed, n);
  }

  lemma CombinationInPlane(f: Vec3, r: Vec3, input: Vec3, speed: real, n: Vec3)
    requires Dot(f, n) == 0.0 && Dot(r, n) == 0.0
    ensures Dot(AxisMovement(f, r, input, speed), n) == 0.0
  {
    DotScaleLeft(f, input.y * speed, n);
    DotScaleLeft(r, input.x * speed, n);
    SumInPlane(Scale(f, input.y * speed), Scale(r, input.x * speed), n);
  }

  lemma SumInPlane(u: Vec3, w: Vec3, n: Vec3)
    requires Dot(u, n) == 0.0 && Dot(w, n) == 0.0
    ensures Dot(Add(u, w), n) == 0.0
  {
  }

  lemma ZeroCombination(f: Vec3, r: Vec3, a: real, b: real)
    ensures a == 0.0 && b == 0.0 ==> Add(Scale(f, a), Scale(r, b)) == Zero
  {
  }

  /** The movement velocity reads only the slope normal and the stick
      input of the controller. */
  lemma MovementVelocityInputs(c: Controller, d: Controller, cfg: Config, s: Sensing, norm: Norm)
    requires c.slopeNormal == d.slopeNormal && c.moveInput == d.moveInput
    ensures MovementVelocity(c, cfg, s, norm) == MovementVelocity(d, cfg, s, norm)
  {
  }

  /** The movement velocity is linear in the stick input: scaling the
      input scales the velocity by the same factor. */
  lemma MovementVelocityScales(c: Controller, cfg: Config, s: Sensing, norm: Norm, k: real)
    ensures MovementVelocity(c.(moveInput := Scale(c.moveInput, k)), cfg, s, norm)
         == Scale(MovementVelocity(c, cfg, s, norm), k)
  {
    SlopeMovementScales(c.slopeNormal, s.forward, s.right, c.moveInput, cfg.movementSpeed, norm, k);
  }

  lemma SlopeMovementScales(n: Vec3, forward: Vec3, right: Vec3, input: Vec3, speed: real, norm: Norm, k: real)
    ensures SlopeMovement(n, forward, right, Scale(input, k), speed, norm)
         == Scale(SlopeMovement(n, forward, right, input, speed, norm), k)
  {
    AxisMovementScales(Normalize(ProjectOnPlane(forward, n), norm), Normalize(ProjectOnPlane(right, n), norm), input, speed, k);
  }

  lemma AxisMovementScales(f: Vec3, r: Vec3, input: Vec3, speed: real, k: real)
    ensures AxisMovement(f, r, Scale(input, k), speed) == Scale(AxisMovement(f, r, input, speed), k)
  {
    var a := input.y * speed;
    var b := input.x * speed;
    ProductReorders(input.y, k, speed);
    ProductReorders(input.x, k, speed);
    assert AxisMovement(f, r, Scale(input, k), speed) == Add(Scale(f, a * k), Scale(r, b * k));
    assert AxisMovement(f, r, input, speed) == Add(Scale(f, a), Scale(r, b));
    CombinationScales(f, r, a, b, k);
  }

  lemma ProductReorders(x: real, k: real, speed: real)
    ensures (x * k) * speed == (x * speed) * k
  {
  }

  lemma CombinationScales(f: Vec3, r: Vec3, a: real, b: real, k: real)
    ensures Add(Scale(f, a * k), Scale(r, b * k)) == Scale(Add(Scale(f, a), Scale(r, b)), k)
  {
    assert f.x * (a * k) + r.x * (b * k) == (f.x * a + r.x * b) * k;
    assert f.y * (a * k) + r.y * (b * k) == (f.y * a + r.y * b) * k;
    assert f.z * (a * k) + r.z * (b * k) == (f.z * a + r.z * b) * k;
  }

  /** On level ground, with the orientation's axes horizontal and of unit
      length, the stick moves the body along those very axes (and so, by
      `AxisMovementLength`, at `movementSpeed` times the stick deflection
      when the axes are perpendicular). */
  lemma LevelGroundMovement(c: Controller, cfg: Config, s: Sensing, norm: Norm)
    requires c.slopeNormal == Up
    requires IsUnit(s.forward) && IsUnit(s.right) && s.forward.y == 0.0 && s.right.y == 0.0
    requires NormAt(norm, s.forward) && NormAt(norm, s.right)
    ensures MovementVelocity(c, cfg, s, norm) == AxisMovement(s.forward, s.right, c.moveInput, cfg.movementSpeed)
  {
    MovementVelocityIsSlope(c, cfg, s, norm);
    LevelSlopeMovement(s.forward, s.right, c.moveInput, cfg.movementSpeed, norm);
  }

  lemma MovementVelocityIsSlope(c: Controller, cfg: Config, s: Sensing, norm: Norm)
    ensures MovementVelocity(c, cfg, s, norm) == SlopeMovement(c.slopeNormal, s.forward, s.right, c.moveInput, cfg.movementSpeed, norm)
  {
  }

  /** On level ground the horizontal axes are their own projections and
      normalizations. */
  lemma LevelSlopeMovement(forward: Vec3, right: Vec3, input: Vec3, speed: real, norm: Norm)
    requires IsUnit(forward) && IsUnit(right) && forward.y == 0.0 && right.y == 0.0
    requires NormAt(norm, forward) && NormAt(norm, right)
    ensures SlopeMovement(Up, forward, right, input, speed, norm) == AxisMovement(forward, right, input, speed)
  {
    assert ProjectOnPlane(forward, Up) == forward by {
      assert Dot(forward, Up) == 0.0;
    }
    assert ProjectOnPlane(right, Up) == right by {
      assert Dot(right, Up) == 0.0;
    }
    NormalizeUnit(forward, norm);
    NormalizeUnit(right, norm);
  }

  /** Along perpendicular unit axes the stick's speed is `speed` times its
      deflection. */
  lemma AxisMovementLength(f: Vec3, r: Vec3, input: Vec3, speed: real)
    requires IsUnit(f) && IsUnit(r) && Dot(f, r) == 0.0
    ensures var v := AxisMovement(f, r, input, speed);
      Dot(v, v) == speed * speed * (input.x * input.x + input.y * input.y)
  {
    OrthonormalCombination(f, r, input.y * speed, input.x * speed);
    SumOfScaledSquares(input.x, input.y, speed);
  }

  lemma SumOfScaledSquares(x: real, y: real, speed: real)
    ensures (y * speed) * (y * speed) + (x * speed) * (x * speed) == speed * speed * (x * x + y * y)
  {
  }

  /** `a f + b r` for perpendicular unit vectors has squared length
      `a^2 + b^2`. */
  lemma OrthonormalCombination(f: Vec3, r: Vec3, a: real, b: real)
    requires IsUnit(f) && IsUnit(r) && Dot(f, r) == 0.0
    ensures var v := Add(Scale(f, a), Scale(r, b)); Dot(v, v) == a * a + b * b
  {
    var v := Add(Scale(f, a), Scale(r, b));
    assert Dot(v, v) == a * a * Dot(f, f) + 2.0 * a * b * Dot(f, r) + b * b * Dot(r, r);
  }

  lemma NormalizedInPlane(p: Vec3, n: Vec3, norm: Norm)
    ensures Dot(p, n) == 0.0 ==> Dot(Normalize(p, norm), n) == 0.0
  {
    if Dot(p, n) == 0.0 && norm(p) > 0.00001 {
      DotScaleLeft(p, 1.0 / norm(p), n);
    }
  }

  /** `CalculateVelocity(ratio)`: one movement impulse scaled by the ratio. */
  function CalculateVelocity(c: Controller, cfg: Config, s: Sensing, norm: Norm, ratio: real): (r: Controller)
    ensures Sub(r.body.impulse, c.body.impulse) == Scale(MovementVelocity(c, cfg, s, norm), ratio)
    ensures r == c.(body := r.body) && r.body == c.body.(impulse := r.body.impulse)
  {
    c.(body := c.body.(impulse := Add(c.body.impulse, Scale(MovementVelocity(c, cfg, s, norm), ratio))))
  }

  /** `HandleGravity`: a downward impulse of `gravityScale` while airborne. */
  function HandleGravity(c: Controller, cfg: Config, isGrounded: bool): (r: Controller)
    ensures isGrounded ==> r == c
    ensures !isGrounded ==> r.body.impulse == Add(c.body.impulse, Vec3(0.0, -cfg.gravityScale, 0.0))
    ensures r == c.(body := r.body) && r.body == c.body.(impulse := r.body.impulse)
  {
    if isGrounded then c else c.(body := c.body.(impulse := Add(c.body.impulse, Scale(Down, cfg.gravityScale))))
  }

  /** `AdjustToGround` with `CalculateGroundAdjustmentVelocity`: the sensor's
      adjustment is added to the velocity only when grounded in Grounded. */
  function AdjustToGround(c: Controller, s: Sensing): (r: Controller)
    ensures s.isGrounded && c.state == Grounded ==> r.body.velocity == Add(c.body.velocity, s.groundAdjustment)
    ensures !(s.isGrounded && c.state == Grounded) ==> r.body.velocity == c.body.velocity
    ensures r == c.(body := r.body) && r.body == c.body.(velocity := r.body.velocity)
  {
    if !s.isGrounded then c
    else
      var adjustment := if c.state != Grounded then Zero else s.groundAdjustment;
      c.(body := c.body.(velocity := Add(c.body.velocity, adjustment)))
  }

  /** The flat speed `HandleSpeedLimit` allows now. */
  function AllowedSpeed(c: Controller, cfg: Config, norm: Norm): (v: real)
    requires ValidConfig(cfg)
    ensures SpeedLimit.Min(c.speedWhenChanged, c.currentMaxSpeed) <= v <= SpeedLimit.Max(c.speedWhenChanged, c.currentMaxSpeed)
    ensures v == c.currentMaxSpeed || SpeedLimit.Abs(v - c.currentMaxSpeed) >= SpeedLimit.SnapDistance
    ensures cfg.timeToChangeSpeed > 0.0 && c.changeStateTimer.time >= cfg.timeToChangeSpeed * (norm(c.moveInput) + SpeedLimit.InputBias)
            ==> v == c.currentMaxSpeed
    ensures var l := SpeedLimit.Lerp(c.speedWhenChanged, c.currentMaxSpeed,
                                     SpeedLimit.EaseParameter(c.changeStateTimer.time, cfg.timeToChangeSpeed, norm(c.moveInput)));
      SpeedLimit.Abs(l - c.currentMaxSpeed) >= SpeedLimit.SnapDistance ==> v == l
  {
    SpeedLimit.EasedSpeed(c.speedWhenChanged, c.currentMaxSpeed, c.changeStateTimer.time,
                          cfg.timeToChangeSpeed, norm(c.moveInput))
  }

  /** `HandleSpeedLimit`: in a speed-limited state, a flat velocity faster
      than the cap is brought to the eased allowed speed, keeping the
      component along the slope normal. */
  function HandleSpeedLimit(c: Controller, cfg: Config, norm: Norm): (r: Controller)
    requires ValidConfig(cfg)
    ensures !IsLimitedSpeed(c.state) ==> r == c
    ensures norm(FlatVelocity(c, c.body.velocity)) <= c.currentMaxSpeed ==> r == c
    ensures r.body.velocity == SpeedLimit.LimitVelocity(c.body.velocity, c.slopeNormal, IsLimitedSpeed(c.state),
                                                         c.currentMaxSpeed, AllowedSpeed(c, cfg, norm), norm)
    ensures r == c.(body := r.body) && r.body == c.body.(velocity := r.body.velocity)
  {
    var v := SpeedLimit.LimitVelocity(c.body.velocity, c.slopeNormal, IsLimitedSpeed(c.state),
                                      c.currentMaxSpeed, AllowedSpeed(c, cfg, norm), norm);
    c.(body := c.body.(velocity := v))
  }

  /** A limited tick on a unit slope normal keeps the velocity's component
      along the normal and gives the flat part the allowed speed. */
  lemma HandleSpeedLimitEases(c: Controller, cfg: Config, norm: Norm)
    requires ValidConfig(cfg) && IsLimitedSpeed(c.state)
    requires IsUnit(c.slopeNormal) && NormAt(norm, c.slopeNormal)
    requires NormAt(norm, FlatVelocity(c, c.body.velocity))
    requires norm(FlatVelocity(c, c.body.velocity)) > c.currentMaxSpeed
    requires norm(FlatVelocity(c, c.body.velocity)) > 0.00001
    ensures var r := HandleSpeedLimit(c, cfg, norm);
      var flat := FlatVelocity(c, r.body.velocity);
      && Dot(r.body.velocity, c.slopeNormal) == Dot(c.body.velocity, c.slopeNormal)
      && Dot(flat, flat) == AllowedSpeed(c, cfg, norm) * AllowedSpeed(c, cfg, norm)
  {
    LimitedFlatLength(c, HandleSpeedLimit(c, cfg, norm), AllowedSpeed(c, cfg, norm), norm);
  }

  /** `LimitKeepsNormalComponent` for the controller's velocity and slope,
      whatever the speed `r`'s velocity is limited to. */
  lemma LimitedFlatLength(c: Controller, r: Controller, speed: real, norm: Norm)
    requires IsUnit(c.slopeNormal) && NormAt(norm, c.slopeNormal)
    requires NormAt(norm, FlatVelocity(c, c.body.velocity))
    requires norm(FlatVelocity(c, c.body.velocity)) > c.currentMaxSpeed
    requires norm(FlatVelocity(c, c.body.velocity)) > 0.00001
    requires r.body.velocity == SpeedLimit.LimitVelocity(c.body.velocity, c.slopeNormal, true, c.currentMaxSpeed, speed, norm)
    ensures Dot(r.body.velocity, c.slopeNormal) == Dot(c.body.velocity, c.slopeNormal)
    ensures Dot(FlatVelocity(c, r.body.velocity), FlatVelocity(c, r.body.velocity)) == speed * speed
  {
    SpeedLimit.LimitKeepsNormalComponent(c.body.velocity, c.slopeNormal, c.currentMaxSpeed, speed, norm);
  }

  /** Outside the snap zone, the flat speed after a limited tick is the
      `Lerp` between the speed at the last change and the cap. */
  lemma HandleSpeedLimitLerps(c: Controller, cfg: Config, norm: Norm)
    requires ValidConfig(cfg) && IsLimitedSpeed(c.state)
    requires IsUnit(c.slopeNormal) && NormAt(norm, c.slopeNormal)
    requires NormAt(norm, FlatVelocity(c, c.body.velocity))
    requires norm(FlatVelocity(c, c.body.velocity)) > c.currentMaxSpeed
    requires norm(FlatVelocity(c, c.body.velocity)) > 0.00001
    ensures var l := SpeedLimit.Lerp(c.speedWhenChanged, c.currentMaxSpeed,
                                     SpeedLimit.EaseParameter(c.changeStateTimer.time, cfg.timeToChangeSpeed, norm(c.moveInput)));
      var flat := FlatVelocity(c, HandleSpeedLimit(c, cfg, norm).body.velocity);
      SpeedLimit.Abs(l - c.currentMaxSpeed) >= SpeedLimit.SnapDistance ==> Dot(flat, flat) == l * l
  {
    var l := SpeedLimit.Lerp(c.speedWhenChanged, c.currentMaxSpeed,
                             SpeedLimit.EaseParameter(c.changeStateTimer.time, cfg.timeToChangeSpeed, norm(c.moveInput)));
    if SpeedLimit.Abs(l - c.currentMaxSpeed) >= SpeedLimit.SnapDistance {
      assert AllowedSpeed(c, cfg, norm) == l;
      LimitedFlatLength(c, HandleSpeedLimit(c, cfg, norm), l, norm);
    }
  }

  /** `HandleDrag`. */
  function HandleDrag(c: Controller, cfg: Config, isGrounded: bool): (r: Controller)
    ensures !isGrounded ==> r.body.drag == 0.0
    ensures isGrounded && c.state == Sliding ==> r.body.drag == cfg.slideDragRatio
    ensures isGrounded && c.state != Sliding ==> r.body.drag == cfg.groundDrag
    ensures r == c.(body := r.body) && r.body == c.body.(drag := r.body.drag)
  {
    var drag := if !isGrounded then 0.0 else if c.state == Sliding then cfg.slideDragRatio else cfg.groundDrag;
    c.(body := c.body.(drag := drag))
  }

  /** With positive ground drags, the body has no drag exactly while
      airborne, and sliding never brakes harder than walking when the slide
      ratio is the smaller of the two. */
  lemma DragVanishesOnlyInAir(c: Controller, cfg: Config, isGrounded: bool)
    requires cfg.groundDrag > 0.0 && cfg.slideDragRatio > 0.0
    ensures HandleDrag(c, cfg, isGrounded).body.drag == 0.0 <==> !isGrounded
    ensures cfg.slideDragRatio <= cfg.groundDrag ==> HandleDrag(c, cfg, isGrounded).body.drag <= cfg.groundDrag
  {
  }

  /** `CalculateSlope`: take the sensor's slope normal. */
  function CalculateSlope(c: Controller, s: Sensing): (r: Controller)
    ensures r.slopeNormal == s.slopeNormal && r.(slopeNormal := c.slopeNormal) == c
  {
    c.(slopeNormal := s.slopeNormal)
  }

  /** `TickTimers`: the coyote countdown and the easing stopwatch advance by
      the frame time. */
  function TickTimers(c: Controller, dt: real): (r: Controller)
    ensures r.coyoteTimer == Tick(c.coyoteTimer, dt) && r.changeStateTimer == TickStopwatch(c.changeStateTimer, dt)
    ensures r.(coyoteTimer := c.coyoteTimer, changeStateTimer := c.changeStateTimer) == c
  {
    c.(coyoteTimer := Tick(c.coyoteTimer, dt), changeStateTimer := TickStopwatch(c.changeStateTimer, dt))
  }
}
