/** The intermediate controller (`Runtime/Movements/PlayerController.cs`
    with the states of `Runtime/Movements/FPSStates.cs`): four states, an
    explicit momentum vector that carries jumps and gravity, and a body
    velocity written every fixed tick. The state machine follows the same
    first-enabled-transition rule as the newest controller. */
module MomentumController {
  import opened Vectors
  import opened Timers
  import opened InputLatch

  datatype State = Grounded | Rising | Falling | Jumping

  datatype Config = Config(
    gravityScale: real,
    movementSpeed: real,
    airDragRatio: real,
    jumpForce: real,
    coyoteTime: real)

  /** The serialized defaults. */
  const DefaultConfig: Config := Config(1.0, 5.0, 0.9, 5.0, 0.15)

  /** What a fixed tick reads from outside: the mover's ground flag and
      adjustment, the body velocity after the last physics step, the
      orientation's axes, `Physics.gravity.y` and the fixed time step. */
  datatype Sensing = Sensing(
    isGrounded: bool,
    groundAdjustment: Vec3,
    velocity: Vec3,
    forward: Vec3,
    right: Vec3,
    gravityY: real,
    fixedDeltaTime: real)

  /** `velocity` is the last velocity handed to the body. */
  datatype Controller = Controller(
    state: State,
    jumpKey: Latch,
    jumpKeyIsLocked: bool,
    coyoteTimer: Countdown,
    momentum: Vec3,
    moveInput: Vec3,
    velocity: Vec3)

  /** `Start`: Falling, idle keys, a stopped coyote timer, zero momentum. */
  function Init(cfg: Config): (c: Controller)
    ensures c.state == Falling && c.jumpKey == Idle && !c.jumpKeyIsLocked
    ensures c.momentum == Zero && !c.coyoteTimer.isRunning && c.coyoteTimer.initialTime == cfg.coyoteTime
  {
    Controller(Falling, Idle, false, NewCountdown(cfg.coyoteTime), Zero, Zero, Zero)
  }

  // ---- Jump ----

  /** `OnJumpEnter`: once per tick, the jump force goes into the vertical
      momentum. */
  function OnJumpEnter(c: Controller, cfg: Config): (r: Controller)
    ensures c.jumpKeyIsLocked ==> r == c
    ensures !c.jumpKeyIsLocked ==> r.jumpKeyIsLocked && r.momentum == c.momentum.(y := c.momentum.y + cfg.jumpForce)
    ensures r == c.(jumpKeyIsLocked := r.jumpKeyIsLocked, momentum := r.momentum)
  {
    if c.jumpKeyIsLocked then c
    else c.(jumpKeyIsLocked := true, momentum := Add(c.momentum, Scale(Up, cfg.jumpForce)))
  }

  /** `OnJumpExit`: while the body still rises, half its vertical speed is
      taken out of the momentum. */
  function OnJumpExit(c: Controller, bodyVelocity: Vec3): (r: Controller)
    ensures bodyVelocity.y > 0.0 ==> r.momentum == c.momentum.(y := c.momentum.y - bodyVelocity.y * 0.5)
    ensures bodyVelocity.y <= 0.0 ==> r == c
    ensures r == c.(momentum := r.momentum)
  {
    if bodyVelocity.y > 0.0 then c.(momentum := Sub(c.momentum, Scale(Up, bodyVelocity.y * 0.5))) else c
  }

  /** `IsEnteringJump`: a fresh unlocked press on the ground, or in Falling
      within the coyote window. This version has no crouch guard. */
  predicate IsEnteringJump(c: Controller, isGrounded: bool) {
    (c.jumpKey.pressed && !c.jumpKeyIsLocked && isGrounded)
    || (c.coyoteTimer.isRunning && c.jumpKey.pressed && !c.jumpKeyIsLocked && c.state == Falling)
  }

  /** The jump momentum is added at most once per lock, and a locked jump
      guard is closed. */
  lemma JumpOncePerLock(c: Controller, cfg: Config, isGrounded: bool)
    ensures OnJumpEnter(OnJumpEnter(c, cfg), cfg) == OnJumpEnter(c, cfg)
    ensures !IsEnteringJump(OnJumpEnter(c, cfg), isGrounded)
    ensures IsEnteringJump(c, isGrounded) ==> c.jumpKey.pressed && !c.jumpKeyIsLocked
    ensures IsEnteringJump(c, isGrounded) && !isGrounded ==> c.state == Falling && c.coyoteTimer.isRunning
  {
  }

  // ---- Hooks of Runtime/Movements/FPSStates.cs ----

  /** `OnGroundExit`: the coyote window opens. */
  function OnGroundExit(c: Controller): (r: Controller)
    ensures r.coyoteTimer.isRunning && r.coyoteTimer.time == c.coyoteTimer.initialTime
    ensures r == c.(coyoteTimer := r.coyoteTimer)
  {
    c.(coyoteTimer := Start(c.coyoteTimer))
  }

  /** `OnEnter`: only Jumping has an effect; the others only log. */
  function OnEnter(to: State, c: Controller, cfg: Config): (r: Controller)
    ensures to != Jumping ==> r == c
    ensures r == c.(jumpKeyIsLocked := r.jumpKeyIsLocked, momentum := r.momentum)
  {
    if to == Jumping then OnJumpEnter(c, cfg) else c
  }

  /** `OnExit`: Grounded opens the coyote window, Jumping cuts the rise,
      Falling and Rising only log. */
  function OnExit(from: State, c: Controller, bodyVelocity: Vec3): (r: Controller)
    ensures from == Falling || from == Rising ==> r == c
    ensures from == Grounded ==> r == OnGroundExit(c)
    ensures from == Jumping ==> r == OnJumpExit(c, bodyVelocity)
  {
    match from
    case Grounded => OnGroundExit(c)
    case Jumping => OnJumpExit(c, bodyVelocity)
    case Falling => c
    case Rising => c
  }

  // ---- Transition table ----

  datatype Guard =
    | OnGround            // grounded
    | MomentumDown        // not grounded, vertical momentum <= 0
    | MomentumUp          // not grounded, vertical momentum > 0
    | JumpEntry           // IsEnteringJump
    | NotRising           // body vertical velocity <= 0
    | RisingReleased      // body vertical velocity > 0 and jump released

  datatype Transition = Transition(from: State, to: State, guard: Guard)

  /** `SetupStateMachine`'s `At(from, to, guard)` calls, in order. */
  const Transitions: seq<Transition> := [
    Transition(Falling, Grounded, OnGround),
    Transition(Grounded, Falling, MomentumDown),
    Transition(Grounded, Rising, MomentumUp),
    Transition(Rising, Falling, MomentumDown),
    Transition(Rising, Grounded, OnGround),
    Transition(Grounded, Jumping, JumpEntry),
    Transition(Falling, Jumping, JumpEntry),
    Transition(Jumping, Falling, NotRising),
    Transition(Jumping, Rising, RisingReleased)
  ]

  predicate GuardHolds(g: Guard, c: Controller, s: Sensing) {
    match g
    case OnGround => s.isGrounded
    case MomentumDown => !s.isGrounded && c.momentum.y <= 0.0
    case MomentumUp => !s.isGrounded && c.momentum.y > 0.0
    case JumpEntry => IsEnteringJump(c, s.isGrounded)
    case NotRising => s.velocity.y <= 0.0
    case RisingReleased => s.velocity.y > 0.0 && c.jumpKey.released
  }

  predicate Enabled(t: Transition, c: Controller, s: Sensing) {
    t.from == c.state && GuardHolds(t.guard, c, s)
  }

  datatype Choice = Stay | MoveTo(to: State)

  /** The first enabled transition in declaration order, or none. */
  function FirstEnabled(ts: seq<Transition>, c: Controller, s: Sensing): (r: Choice)
    ensures r.Stay? <==> forall i :: 0 <= i < |ts| ==> !Enabled(ts[i], c, s)
    ensures r.MoveTo? ==> exists i :: 0 <= i < |ts| && Enabled(ts[i], c, s) && ts[i].to == r.to
                                      && forall j :: 0 <= j < i ==> !Enabled(ts[j], c, s)
    decreases |ts|
  {
    if |ts| == 0 then Stay
    else if Enabled(ts[0], c, s) then MoveTo(ts[0].to)
    else
      var rest := FirstEnabled(ts[1..], c, s);
      assert forall i :: 1 <= i < |ts| ==> ts[i] == ts[1..][i - 1];
      rest
  }

  lemma {:induction false} FirstEnabledPicks(ts: seq<Transition>, c: Controller, s: Sensing, k: nat)
    requires k < |ts| && Enabled(ts[k], c, s)
    requires forall j :: 0 <= j < k ==> !Enabled(ts[j], c, s)
    ensures FirstEnabled(ts, c, s) == MoveTo(ts[k].to)
    decreases k
  {
    if k > 0 {
      assert !Enabled(ts[0], c, s);
      assert forall j :: 0 <= j < k - 1 ==> ts[1..][j] == ts[j + 1];
      FirstEnabledPicks(ts[1..], c, s, k - 1);
    }
  }

  /** The machine's fixed tick: the states' fixed updates are empty, so it
      is at most one transition with its exit and enter hooks. */
  function MachineFixedUpdate(c: Controller, cfg: Config, s: Sensing): (r: Controller)
    ensures r.jumpKey == c.jumpKey && r.moveInput == c.moveInput && r.velocity == c.velocity
    ensures FirstEnabled(Transitions, c, s).Stay? ==> r == c
    ensures FirstEnabled(Transitions, c, s).MoveTo? ==> r.state == FirstEnabled(Transitions, c, s).to
  {
    match FirstEnabled(Transitions, c, s)
    case Stay => c
    case MoveTo(to) => OnEnter(to, OnExit(c.state, c, s.velocity).(state := to), cfg)
  }

  // ---- Momentum and velocity ----

  /** `HandleGravity`: the vertical momentum is zero in Grounded, and
      otherwise gains gravity times the scale for one fixed step. */
  function VerticalMomentum(c: Controller, cfg: Config, s: Sensing): (y: real)
    ensures c.state == Grounded ==> y == 0.0
    ensures c.state != Grounded ==> y - c.momentum.y == s.gravityY * cfg.gravityScale * s.fixedDeltaTime
  {
    if c.state == Grounded then 0.0 else c.momentum.y + s.gravityY * cfg.gravityScale * s.fixedDeltaTime
  }

  /** Unity's implicit `Vector3` to `Vector2` conversion keeps x and y. */
  function ToVector2(v: Vec3): (real, real) {
    (v.x, v.y)
  }

  /** `HandleMomentum` as written: the horizontal part is taken as
      `_momentum.WithY(0)` stored in a `Vector2`, which keeps (x, 0); the
      new momentum is built from its x and its second coordinate, so the z
      component is replaced by 0. */
  function HandleMomentumAsWritten(c: Controller, cfg: Config, s: Sensing): (m: Vec3)
    ensures m.x == c.momentum.x && m.y == VerticalMomentum(c, cfg, s) && m.z == 0.0
  {
    var horizontal := ToVector2(WithY(c.momentum, 0.0));
    Vec3(horizontal.0, VerticalMomentum(c, cfg, s), horizontal.1)
  }

  /** `HandleMomentum` as intended: gravity changes the vertical momentum
      and the horizontal momentum is carried over. */
  function HandleMomentum(c: Controller, cfg: Config, s: Sensing): (m: Vec3)
    ensures m.x == c.momentum.x && m.z == c.momentum.z
    ensures m.y == VerticalMomentum(c, cfg, s)
  {
    WithY(c.momentum, VerticalMomentum(c, cfg, s))
  }

  /** The code as written loses horizontal momentum along z: a momentum of
      (0, 0, 1) comes out with z = 0, where the intended update keeps 1. */
  lemma MomentumLosesZ(c: Controller, cfg: Config, s: Sensing)
    requires c.momentum == Vec3(0.0, 0.0, 1.0)
    ensures HandleMomentumAsWritten(c, cfg, s).z == 0.0
    ensures HandleMomentum(c, cfg, s).z == 1.0
    ensures HandleMomentumAsWritten(c, cfg, s) != HandleMomentum(c, cfg, s)
  {
  }

  /** The two agree whenever the momentum has no z component. */
  lemma MomentumVersionsAgree(c: Controller, cfg: Config, s: Sensing)
    requires c.momentum.z == 0.0
    ensures HandleMomentumAsWritten(c, cfg, s) == HandleMomentum(c, cfg, s)
  {
  }

  /** `GetDragFromState`: full control on the ground, `airDragRatio` in the
      air. */
  function DragFromState(st: State, cfg: Config): (d: real)
    ensures st == Grounded ==> d == 1.0
    ensures st != Grounded ==> d == cfg.airDragRatio
  {
    match st
    case Grounded => 1.0
    case Rising => cfg.airDragRatio
    case Falling => cfg.airDragRatio
    case Jumping => cfg.airDragRatio
  }

  /** `CalculateGroundAdjustmentVelocity`: the mover's adjustment in
      Grounded, nothing otherwise. */
  function GroundAdjustment(c: Controller, s: Sensing): (v: Vec3)
    ensures c.state != Grounded ==> v == Zero
    ensures c.state == Grounded ==> v == s.groundAdjustment
  {
    if c.state == Grounded then s.groundAdjustment else Zero
  }

  /** `CalculateMovementVelocity`: the stick input along the orientation's
      axes at the movement speed (no slope projection in this version). */
  function MovementVelocity(c: Controller, cfg: Config, s: Sensing): Vec3 {
    Add(Scale(s.forward, c.moveInput.y * cfg.movementSpeed), Scale(s.right, c.moveInput.x * cfg.movementSpeed))
  }

  /** `CalculateVelocity` with the mover's `SetVelocity`: the movement
      velocity scaled by the state's factor, plus the momentum and the
      controller's ground adjustment; the mover adds its own current
      adjustment on top. */
  function CalculateVelocity(c: Controller, cfg: Config, s: Sensing): (r: Controller)
    ensures Sub(r.velocity, Add(Scale(MovementVelocity(c, cfg, s), DragFromState(c.state, cfg)), c.momentum))
         == Add(GroundAdjustment(c, s), s.groundAdjustment)
    ensures r == c.(velocity := r.velocity)
  {
    var velocity := Add(Scale(MovementVelocity(c, cfg, s), DragFromState(c.state, cfg)), c.momentum);
    c.(velocity := Add(Add(velocity, GroundAdjustment(c, s)), s.groundAdjustment))
  }

  /** What the body is asked to move at on the ground: the movement velocity
      at full strength, the momentum, and the mover's adjustment twice, once
      through the controller and once more inside `SetVelocity`. */
  lemma GroundedVelocity(c: Controller, cfg: Config, s: Sensing)
    requires c.state == Grounded
    ensures CalculateVelocity(c, cfg, s).velocity
         == Add(Add(MovementVelocity(c, cfg, s), c.momentum), Scale(s.groundAdjustment, 2.0))
  {
    var mv := MovementVelocity(c, cfg, s);
    assert Scale(mv, DragFromState(c.state, cfg)) == mv;
  }

  /** In the air: the movement velocity weakened by `airDragRatio`, the
      momentum, and the mover's adjustment once. */
  lemma AirborneVelocity(c: Controller, cfg: Config, s: Sensing)
    requires c.state != Grounded
    ensures CalculateVelocity(c, cfg, s).velocity
         == Add(Add(Scale(MovementVelocity(c, cfg, s), cfg.airDragRatio), c.momentum), s.groundAdjustment)
  {
    assert GroundAdjustment(c, s) == Zero;
  }

  /** With the stick at rest only the momentum and the adjustments remain. */
  lemma RestingVelocity(c: Controller, cfg: Config, s: Sensing)
    requires c.moveInput.x == 0.0 && c.moveInput.y == 0.0
    ensures CalculateVelocity(c, cfg, s).velocity == Add(Add(c.momentum, GroundAdjustment(c, s)), s.groundAdjustment)
  {
    assert MovementVelocity(c, cfg, s) == Zero;
  }

  /** `ResetJumpKeys`. */
  function ResetJumpKeys(c: Controller): (r: Controller)
    ensures !r.jumpKey.pressed && !r.jumpKey.released && !r.jumpKeyIsLocked && r.jumpKey.held == c.jumpKey.held
    ensures r == c.(jumpKey := r.jumpKey, jumpKeyIsLocked := false)
  {
    c.(jumpKey := ClearEdges(c.jumpKey), jumpKeyIsLocked := false)
  }

  /** `FixedUpdate`: the machine, the momentum update, the body velocity,
      and last the key reset. */
  function FixedTick(c: Controller, cfg: Config, s: Sensing): (r: Controller)
    ensures !r.jumpKey.pressed && !r.jumpKey.released && !r.jumpKeyIsLocked && r.jumpKey.held == c.jumpKey.held
    ensures r.state == MachineFixedUpdate(c, cfg, s).state
  {
    var c1 := MachineFixedUpdate(c, cfg, s);
    var c2 := c1.(momentum := HandleMomentum(c1, cfg, s));
    ResetJumpKeys(CalculateVelocity(c2, cfg, s))
  }

  /** `Update`: the states' updates are empty; only the coyote timer moves. */
  function FrameTick(c: Controller, dt: real): (r: Controller)
    ensures r == c.(coyoteTimer := Tick(c.coyoteTimer, dt))
  {
    c.(coyoteTimer := Tick(c.coyoteTimer, dt))
  }

  datatype Event =
    | Fixed(sensing: Sensing)
    | Frame(dt: real)
    | JumpInput(isPressed: bool)
    | MoveInput(input: Vec3)

  /** `inputReader.Move`: inputs longer than one are normalized. */
  function HandleMoveInput(c: Controller, input: Vec3, norm: Norm): (r: Controller)
    ensures norm(input) <= 1.0 ==> r.moveInput == input
    ensures NormAt(norm, input) ==> Dot(r.moveInput, r.moveInput) <= 1.0
    ensures r == c.(moveInput := r.moveInput)
  {
    c.(moveInput := ClampToUnit(input, norm))
  }

  function Step(c: Controller, cfg: Config, e: Event, norm: Norm): Controller {
    match e
    case Fixed(s) => FixedTick(c, cfg, s)
    case Frame(dt) => FrameTick(c, dt)
    case JumpInput(p) => c.(jumpKey := Record(c.jumpKey, p))
    case MoveInput(v) => HandleMoveInput(c, v, norm)
  }

  function Run(c: Controller, cfg: Config, events: seq<Event>, norm: Norm): Controller
    decreases |events|
  {
    if |events| == 0 then c else Run(Step(c, cfg, events[0], norm), cfg, events[1..], norm)
  }

  /** A run over two event sequences in a row is the second run started
      where the first one ended: nothing but the controller record carries
      over from one event to the next. */
  lemma {:induction false} RunAppend(c: Controller, cfg: Config, a: seq<Event>, b: seq<Event>, norm: Norm)
    ensures Run(c, cfg, a + b, norm) == Run(Run(c, cfg, a, norm), cfg, b, norm)
    decreases |a|
  {
    if |a| == 0 {
      assert a + b == b;
    } else {
      assert (a + b)[0] == a[0];
      assert (a + b)[1..] == a[1..] + b;
      RunAppend(Step(c, cfg, a[0], norm), cfg, a[1..], b, norm);
    }
  }

  /** Only vertical forces ever reach the momentum: jumps, jump cuts and
      gravity. */
  predicate MomentumIsVertical(c: Controller) {
    c.momentum.x == 0.0 && c.momentum.z == 0.0
  }

  lemma StepKeepsMomentumVertical(c: Controller, cfg: Config, e: Event, norm: Norm)
    requires MomentumIsVertical(c)
    ensures MomentumIsVertical(Step(c, cfg, e, norm))
  {
    match e
    case Fixed(s) =>
      var c1 := MachineFixedUpdate(c, cfg, s);
      assert MomentumIsVertical(c1) by {
        match FirstEnabled(Transitions, c, s)
        case Stay =>
        case MoveTo(to) =>
          var x := OnExit(c.state, c, s.velocity).(state := to);
          assert MomentumIsVertical(x);
      }
    case Frame(dt) =>
    case JumpInput(p) =>
    case MoveInput(v) =>
  }

  /** From the start, the momentum never has a horizontal component, so the
      z component that `HandleMomentum` drops is always zero and the code as
      written behaves as intended on every run. */
  lemma {:induction false} RunKeepsMomentumVertical(c: Controller, cfg: Config, events: seq<Event>, norm: Norm)
    requires MomentumIsVertical(c)
    ensures MomentumIsVertical(Run(c, cfg, events, norm))
    decreases |events|
  {
    if |events| > 0 {
      StepKeepsMomentumVertical(c, cfg, events[0], norm);
      RunKeepsMomentumVertical(Step(c, cfg, events[0], norm), cfg, events[1..], norm);
    }
  }

  lemma InitMomentumVertical(cfg: Config)
    ensures MomentumIsVertical(Init(cfg))
    ensures forall events: seq<Event>, norm: Norm, s: Sensing ::
      HandleMomentumAsWritten(Run(Init(cfg), cfg, events, norm), cfg, s) == HandleMomentum(Run(Init(cfg), cfg, events, norm), cfg, s)
  {
    forall events: seq<Event>, norm: Norm, s: Sensing
      ensures HandleMomentumAsWritten(Run(Init(cfg), cfg, events, norm), cfg, s) == HandleMomentum(Run(Init(cfg), cfg, events, norm), cfg, s)
    {
      RunKeepsMomentumVertical(Init(cfg), cfg, events, norm);
    }
  }

  // ---- Table properties ----

  /** Jumping falls as soon as the body stops rising: at a vertical speed
      of exactly zero this version leaves Jumping for Falling. */
  lemma JumpingFallsAtZero(c: Controller, cfg: Config, s: Sensing)
    requires c.state == Jumping && s.velocity.y == 0.0
    ensures MachineFixedUpdate(c, cfg, s).state == Falling
  {
    assert Enabled(Transitions[7], c, s);
    FirstEnabledPicks(Transitions, c, s, 7);
  }

  /** Leaving the ground with no upward momentum goes to Falling and opens
      the coyote window. */
  lemma LeavingGroundOpensCoyote(c: Controller, cfg: Config, s: Sensing)
    requires c.state == Grounded && !s.isGrounded && c.momentum.y <= 0.0
    requires !c.jumpKey.pressed
    ensures var r := MachineFixedUpdate(c, cfg, s);
      r.state == Falling && r.coyoteTimer.isRunning && r.coyoteTimer.time == c.coyoteTimer.initialTime
  {
    assert Enabled(Transitions[1], c, s);
    FirstEnabledPicks(Transitions, c, s, 1);
  }

  /** In Falling with the coyote window open, a fresh unlocked press jumps:
      the machine enters Jumping and the jump force is added to the
      vertical momentum, once. */
  lemma CoyoteJump(c: Controller, cfg: Config, s: Sensing)
    requires c.state == Falling && !s.isGrounded && c.coyoteTimer.isRunning
    requires c.jumpKey.pressed && !c.jumpKeyIsLocked
    ensures var r := MachineFixedUpdate(c, cfg, s);
      && r.state == Jumping && r.jumpKeyIsLocked
      && r.momentum == c.momentum.(y := c.momentum.y + cfg.jumpForce)
  {
    CoyoteChoice(c, s);
    var mid := OnExit(c.state, c, s.velocity).(state := Jumping);
    assert MachineFixedUpdate(c, cfg, s) == OnJumpEnter(mid, cfg);
  }

  lemma CoyoteChoice(c: Controller, s: Sensing)
    requires c.state == Falling && !s.isGrounded && c.coyoteTimer.isRunning
    requires c.jumpKey.pressed && !c.jumpKeyIsLocked
    ensures FirstEnabled(Transitions, c, s) == MoveTo(Jumping)
  {
    assert Enabled(Transitions[6], c, s);
    FirstEnabledPicks(Transitions, c, s, 6);
  }
}
