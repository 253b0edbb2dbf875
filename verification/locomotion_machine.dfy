/** The newest controller's state machine: the guarded transition table
    declared in `SetupStateMachine`, the first-enabled-transition rule of the
    fixed tick, and the controller's `FixedUpdate` and `Update` orderings.

    The generic state machine class is not part of this model. It is
    modelled as: a fixed tick runs the current state's `FixedUpdate`, then
    takes the first transition, in declaration order, that leaves the current
    state and whose guard holds (at most one per tick), calling the old
    state's `OnExit`, switching state and calling the new state's `OnEnter`.
    A frame runs only the current state's `Update`. */
module LocomotionMachine {
  import opened Vectors
  import opened Timers
  import opened InputLatch
  import opened Locomotion
  import FpsStates
  import JumpMovement
  import SlideMovement
  import ClimbMovement

  /** The guards of the table, one per distinct condition. */
  datatype Guard =
    | OnGround        // grounded
    | AirborneDown    // not grounded, vertical velocity <= 0
    | AirborneUp      // not grounded, vertical velocity > 0
    | JumpEntry       // IsEnteringJump
    | MovingDown      // vertical velocity < 0
    | RisingReleased  // vertical velocity > 0 and jump released
    | SlideEntry      // IsSliding
    | SlideToCrouch   // not sliding, crouching
    | SlideToStand    // not sliding, grounded, not crouching
    | CrouchEntry     // crouching, speed below the minimum slide speed
    | CrouchRelease   // crouch released
    | ClimbEntry      // IsClimbingEnter
    | ClimbRelease    // IsClimbingExit

  datatype Transition = Transition(from: State, to: State, guard: Guard)

  /** `SetupStateMachine`'s `At(from, to, guard)` calls, in order. */
  const Transitions: seq<Transition> := [
    Transition(Falling, Grounded, OnGround),
    Transition(Grounded, Falling, AirborneDown),
    Transition(Grounded, Rising, AirborneUp),
    Transition(Rising, Falling, AirborneDown),
    Transition(Rising, Grounded, OnGround),
    Transition(Grounded, Jumping, JumpEntry),
    Transition(Falling, Jumping, JumpEntry),
    Transition(Jumping, Falling, MovingDown),
    Transition(Jumping, Rising, RisingReleased),
    Transition(Grounded, Sliding, SlideEntry),
    Transition(Sliding, Crouching, SlideToCrouch),
    Transition(Sliding, Grounded, SlideToStand),
    Transition(Sliding, Jumping, JumpEntry),
    Transition(Sliding, Falling, AirborneDown),
    Transition(Sliding, Rising, AirborneUp),
    Transition(Grounded, Crouching, CrouchEntry),
    Transition(Crouching, Grounded, CrouchRelease),
    Transition(Crouching, Falling, AirborneDown),
    Transition(Crouching, Rising, AirborneUp),
    Transition(Crouching, Jumping, JumpEntry),
    Transition(Jumping, Climbing, ClimbEntry),
    Transition(Rising, Climbing, ClimbEntry),
    Transition(Falling, Climbing, ClimbEntry),
    Transition(Climbing, Falling, ClimbRelease)
  ]

  /** The state the machine starts in (`SetState(fallingState)`). */
  const InitialState: State := Falling

  /** Whether a guard holds for controller `c` and the tick's ground flag. */
  predicate GuardHolds(g: Guard, c: Controller, cfg: Config, isGrounded: bool, norm: Norm) {
    match g
    case OnGround => isGrounded
    case AirborneDown => !isGrounded && c.body.velocity.y <= 0.0
    case AirborneUp => !isGrounded && c.body.velocity.y > 0.0
    case JumpEntry => JumpMovement.IsEnteringJump(c, isGrounded)
    case MovingDown => c.body.velocity.y < 0.0
    case RisingReleased => c.body.velocity.y > 0.0 && c.jumpKey.released
    case SlideEntry => SlideMovement.IsSliding(c, cfg, isGrounded, norm)
    case SlideToCrouch => !SlideMovement.IsSliding(c, cfg, isGrounded, norm) && IsCrouching(c)
    case SlideToStand => !SlideMovement.IsSliding(c, cfg, isGrounded, norm) && isGrounded && !IsCrouching(c)
    case CrouchEntry => IsCrouching(c) && norm(c.body.velocity) < cfg.minimumSlideVelocity
    case CrouchRelease => c.crouchKey.released
    case ClimbEntry => ClimbMovement.IsClimbingEnter(c, cfg)
    case ClimbRelease => ClimbMovement.IsClimbingExit(c)
  }

  /** A transition is enabled when it leaves the current state and its
      guard holds. */
  predicate Enabled(t: Transition, c: Controller, cfg: Config, isGrounded: bool, norm: Norm) {
    t.from == c.state && GuardHolds(t.guard, c, cfg, isGrounded, norm)
  }

  /** A from→to pair that some declared transition connects. */
  predicate Declared(from: State, to: State) {
    exists i :: 0 <= i < |Transitions| && Transitions[i].from == from && Transitions[i].to == to
  }

  /** The table regrouped by the state a transition leaves: the targets and
      guards each state may take, independently of the declaration order. */
  predicate Allowed(t: Transition) {
    match t.from
    case Falling => (t.to == Grounded && t.guard == OnGround) || (t.to == Jumping && t.guard == JumpEntry)
                    || (t.to == Climbing && t.guard == ClimbEntry)
    case Grounded => (t.to == Falling && t.guard == AirborneDown) || (t.to == Rising && t.guard == AirborneUp)
                     || (t.to == Jumping && t.guard == JumpEntry) || (t.to == Sliding && t.guard == SlideEntry)
                     || (t.to == Crouching && t.guard == CrouchEntry)
    case Rising => (t.to == Falling && t.guard == AirborneDown) || (t.to == Grounded && t.guard == OnGround)
                   || (t.to == Climbing && t.guard == ClimbEntry)
    case Jumping => (t.to == Falling && t.guard == MovingDown) || (t.to == Rising && t.guard == RisingReleased)
                    || (t.to == Climbing && t.guard == ClimbEntry)
    case Sliding => (t.to == Crouching && t.guard == SlideToCrouch) || (t.to == Grounded && t.guard == SlideToStand)
                    || (t.to == Jumping && t.guard == JumpEntry) || (t.to == Falling && t.guard == AirborneDown)
                    || (t.to == Rising && t.guard == AirborneUp)
    case Crouching => (t.to == Grounded && t.guard == CrouchRelease) || (t.to == Falling && t.guard == AirborneDown)
                      || (t.to == Rising && t.guard == AirborneUp) || (t.to == Jumping && t.guard == JumpEntry)
    case Climbing => t.to == Falling && t.guard == ClimbRelease
  }

  /** Every declared transition is one the regrouped table allows. */
  lemma TableGroupedBySource()
    ensures forall i :: 0 <= i < |Transitions| ==> Allowed(Transitions[i])
  {
  }

  datatype Choice = Stay | MoveTo(to: State)

  /** The transition the fixed tick takes: the first enabled one, in
      declaration order, or none. */
  function FirstEnabled(ts: seq<Transition>, c: Controller, cfg: Config, isGrounded: bool, norm: Norm): (r: Choice)
    ensures r.Stay? <==> forall i :: 0 <= i < |ts| ==> !Enabled(ts[i], c, cfg, isGrounded, norm)
    ensures r.MoveTo? ==> exists i :: 0 <= i < |ts| && Enabled(ts[i], c, cfg, isGrounded, norm) && ts[i].to == r.to
                                      && forall j :: 0 <= j < i ==> !Enabled(ts[j], c, cfg, isGrounded, norm)
    decreases |ts|
  {
    if |ts| == 0 then Stay
    else if Enabled(ts[0], c, cfg, isGrounded, norm) then MoveTo(ts[0].to)
    else
      var rest := FirstEnabled(ts[1..], c, cfg, isGrounded, norm);
      assert forall i :: 1 <= i < |ts| ==> ts[i] == ts[1..][i - 1];
      rest
  }

  /** A transition taken leaves the current state along a declared pair
      whose guard holds. */
  lemma FirstEnabledIsDeclared(c: Controller, cfg: Config, isGrounded: bool, norm: Norm)
    ensures var r := FirstEnabled(Transitions, c, cfg, isGrounded, norm);
      r.MoveTo? ==> Declared(c.state, r.to)
                    && exists t :: Allowed(t) && Enabled(t, c, cfg, isGrounded, norm) && t.to == r.to
  {
    var r := FirstEnabled(Transitions, c, cfg, isGrounded, norm);
    if r.MoveTo? {
      var i :| 0 <= i < |Transitions| && Enabled(Transitions[i], c, cfg, isGrounded, norm) && Transitions[i].to == r.to
               && forall j :: 0 <= j < i ==> !Enabled(Transitions[j], c, cfg, isGrounded, norm);
      TableGroupedBySource();
      assert Allowed(Transitions[i]);
    }
  }

  /** `OnExit` of the old state, the switch, `OnEnter` of the new state. */
  function ChangeState(c: Controller, to: State, cfg: Config, s: Sensing, norm: Norm): (r: Controller)
    ensures r.state == to && SameKeys(r, c)
    ensures to != Grounded ==> r.isExitingClimb == (c.isExitingClimb || c.state == Climbing)
  {
    FpsStates.OnEnter(to, FpsStates.OnExit(c.state, c).(state := to), cfg, s, norm)
  }

  /** The machine's fixed tick: the state's fixed update, then at most one
      transition, chosen on the updated controller. */
  function MachineFixedUpdate(c: Controller, cfg: Config, s: Sensing, norm: Norm, angle: (Vec3, Vec3) -> real): (r: Controller)
    ensures SameKeys(r, c)
    ensures r.state == c.state || Declared(c.state, r.state)
  {
    var c1 := FpsStates.FixedUpdate(c, cfg, s, norm, angle);
    FirstEnabledIsDeclared(c1, cfg, s.isGrounded, norm);
    match FirstEnabled(Transitions, c1, cfg, s.isGrounded, norm)
    case Stay => c1
    case MoveTo(to) => ChangeState(c1, to, cfg, s, norm)
  }

  /** When the choice on the updated controller is a move, the tick is that
      change of state. */
  lemma MachineMovesTo(c: Controller, cfg: Config, s: Sensing, norm: Norm, angle: (Vec3, Vec3) -> real, to: State)
    requires FirstEnabled(Transitions, FpsStates.FixedUpdate(c, cfg, s, norm, angle), cfg, s.isGrounded, norm) == MoveTo(to)
    ensures MachineFixedUpdate(c, cfg, s, norm, angle) == ChangeState(FpsStates.FixedUpdate(c, cfg, s, norm, angle), to, cfg, s, norm)
  {
  }

  /** The body as the physics engine left it after the last step: the
      sensed velocity, and no impulse yet this tick. */
  function SenseBody(c: Controller, s: Sensing): (r: Controller)
    ensures r.body.velocity == s.velocity && r.body.impulse == Zero
    ensures r == c.(body := r.body) && r.body == c.body.(velocity := r.body.velocity, impulse := Zero)
  {
    c.(body := c.body.(velocity := s.velocity, impulse := Zero))
  }

  /** What `FixedUpdate` does after the machine: slope, gravity, ground
      adjustment, speed limit and drag, and last the key resets. Only the
      slope normal, the body and the key edges and lock change. */
  function AfterMachine(c: Controller, cfg: Config, s: Sensing, norm: Norm): (r: Controller)
    requires ValidConfig(cfg)
    ensures r == c.(slopeNormal := s.slopeNormal, body := r.body, jumpKey := ClearEdges(c.jumpKey),
                    jumpKeyIsLocked := false, crouchKey := ClearEdges(c.crouchKey))
    ensures r.body.isCrouching == c.body.isCrouching && r.body.useExtendedCastLength == c.body.useExtendedCastLength
    ensures s.isGrounded ==> r.body.impulse == c.body.impulse
    ensures !s.isGrounded ==> r.body.impulse == Add(c.body.impulse, Vec3(0.0, -cfg.gravityScale, 0.0))
    ensures !s.isGrounded ==> r.body.drag == 0.0
    ensures s.isGrounded && c.state == Sliding ==> r.body.drag == cfg.slideDragRatio
    ensures s.isGrounded && c.state != Sliding ==> r.body.drag == cfg.groundDrag
  {
    var c2 := CalculateSlope(c, s);
    var c3 := HandleGravity(c2, cfg, s.isGrounded);
    var c4 := AdjustToGround(c3, s);
    var c5 := HandleSpeedLimit(c4, cfg, norm);
    var c6 := HandleDrag(c5, cfg, s.isGrounded);
    ResetCrouchKeys(ResetJumpKeys(c6))
  }

  /** `FixedUpdate`: the machine on the body as the physics step left it,
      then the per-tick policy. Each key edge and the jump lock live for
      exactly one tick; the held flags survive. */
  function FixedTick(c: Controller, cfg: Config, s: Sensing, norm: Norm, angle: (Vec3, Vec3) -> real): (r: Controller)
    requires ValidConfig(cfg)
    ensures !r.jumpKey.pressed && !r.jumpKey.released && !r.jumpKeyIsLocked
    ensures !r.crouchKey.pressed && !r.crouchKey.released
    ensures r.jumpKey.held == c.jumpKey.held && r.crouchKey.held == c.crouchKey.held
    ensures r.state == c.state || Declared(c.state, r.state)
    ensures r.slopeNormal == s.slopeNormal
    ensures !s.isGrounded ==> r.body.drag == 0.0
  {
    AfterMachine(MachineFixedUpdate(SenseBody(c, s), cfg, s, norm, angle), cfg, s, norm)
  }

  /** `Update`: the state's update, the timers, and the wall check. */
  function FrameTick(c: Controller, dt: real, w: WallReading): (r: Controller)
    ensures r.state == c.state && SameKeys(r, c) && r.jumpKeyIsLocked == c.jumpKeyIsLocked
    ensures r.isExitingClimb == c.isExitingClimb && r.isExitingCrouch == c.isExitingCrouch
    ensures r.coyoteTimer == Tick(c.coyoteTimer, dt) && r.changeStateTimer == TickStopwatch(c.changeStateTimer, dt)
    ensures c.state == Climbing ==> r.climbTimer == Tick(c.climbTimer, dt)
    ensures c.state != Climbing ==> r.climbTimer == c.climbTimer
    ensures r.isWallInFront == w.isWallInFront && r.wallLookAngle == w.wallLookAngle
    ensures r.body == c.body
  {
    ClimbMovement.WallCheck(TickTimers(FpsStates.Update(c, dt), dt), w)
  }

  /** What reaches the controller: fixed ticks with the sensor readings,
      frames with their time step and wall reading, and input callbacks. */
  datatype Event =
    | Fixed(sensing: Sensing)
    | Frame(dt: real, wall: WallReading)
    | JumpInput(isPressed: bool)
    | CrouchInput(isPressed: bool)
    | MoveInput(input: Vec3)

  function Step(c: Controller, cfg: Config, e: Event, norm: Norm, angle: (Vec3, Vec3) -> real): Controller
    requires ValidConfig(cfg)
  {
    match e
    case Fixed(s) => FixedTick(c, cfg, s, norm, angle)
    case Frame(dt, w) => FrameTick(c, dt, w)
    case JumpInput(p) => HandleJumpKeyInput(c, p)
    case CrouchInput(p) => HandleCrouchKeyInput(c, p)
    case MoveInput(v) => HandleMoveInput(c, v, norm)
  }

  function Run(c: Controller, cfg: Config, events: seq<Event>, norm: Norm, angle: (Vec3, Vec3) -> real): Controller
    requires ValidConfig(cfg)
    decreases |events|
  {
    if |events| == 0 then c else Run(Step(c, cfg, events[0], norm, angle), cfg, events[1..], norm, angle)
  }

  /** A run over two event sequences in a row is the second run started
      where the first one ended: nothing but the controller record carries
      over from one event to the next. */
  lemma {:induction false} RunAppend(c: Controller, cfg: Config, a: seq<Event>, b: seq<Event>, norm: Norm, angle: (Vec3, Vec3) -> real)
    requires ValidConfig(cfg)
    ensures Run(c, cfg, a + b, norm, angle) == Run(Run(c, cfg, a, norm, angle), cfg, b, norm, angle)
    decreases |a|
  {
    if |a| == 0 {
      assert a + b == b;
    } else {
      assert (a + b)[0] == a[0];
      assert (a + b)[1..] == a[1..] + b;
      RunAppend(Step(c, cfg, a[0], norm, angle), cfg, a[1..], b, norm, angle);
    }
  }
}
