/** The oldest controller (`Runtime/Movements/PlayerMovements.cs`): no
    state machine, a jump handled directly in the input callback, a
    continuous movement force, drag on the ground, and a hard clamp of the
    horizontal speed. Coyote time is measured by a stopwatch that the ground
    check resets. */
module LegacyMovements {
  import opened Vectors
  import opened Timers

  datatype Config = Config(
    movementSpeed: real,
    groundDrag: real,
    jumpForce: real,
    jumpCooldown: real,
    airMultiplier: real,
    coyoteTime: real)

  /** The serialized defaults; `airMultiplier` has no initializer and so
      starts at zero. */
  const DefaultConfig: Config := Config(1.0, 5.0, 5.0, 0.25, 0.0, 0.2)

  /** The rigidbody as this controller drives it: the velocity it reads and
      overwrites, the impulses and forces queued for the next physics step,
      and the drag. */
  datatype Body = Body(velocity: Vec3, impulse: Vec3, force: Vec3, drag: real)

  datatype Controller = Controller(
    horizontalInput: real,
    verticalInput: real,
    jumpTimer: Countdown,
    groundedTimer: Stopwatch,
    isGrounded: bool,
    body: Body)

  /** `Start`: a stopped cooldown loaded with `jumpCooldown`, and the
      field-initialized stopwatch, which is not started. */
  function Init(cfg: Config): (c: Controller)
    ensures c.jumpTimer == NewCountdown(cfg.jumpCooldown) && c.groundedTimer == NewStopwatch()
    ensures !c.isGrounded
  {
    Controller(0.0, 0.0, NewCountdown(cfg.jumpCooldown), NewStopwatch(), false, Body(Zero, Zero, Zero, 0.0))
  }

  /** `HandleMovementInput`. */
  function HandleMovementInput(c: Controller, x: real, y: real): (r: Controller)
    ensures r == c.(horizontalInput := x, verticalInput := y)
  {
    c.(horizontalInput := x, verticalInput := y)
  }

  // ---- Jump ----

  /** The jump cooldown allows a jump when it has run out or never ran. */
  predicate CooldownOver(c: Controller) {
    c.jumpTimer.IsFinished() || !c.jumpTimer.isRunning
  }

  /** On the ground, or less than `coyoteTime` since the ground was last
      seen according to the stopwatch. */
  predicate GroundedOrCoyote(c: Controller, cfg: Config) {
    c.isGrounded || c.groundedTimer.time < cfg.coyoteTime
  }

  /** The can-jump rule of `HandleJump`. */
  predicate CanJump(c: Controller, cfg: Config, isJumpPressed: bool) {
    isJumpPressed && GroundedOrCoyote(c, cfg) && CooldownOver(c)
  }

  /** `HandleJump`: a jump zeroes the vertical velocity, queues one impulse
      of `jumpForce` upwards and starts the cooldown; a release while rising
      halves the vertical velocity. */
  function HandleJump(c: Controller, cfg: Config, isJumpPressed: bool): (r: Controller)
    ensures CanJump(c, cfg, isJumpPressed) ==>
      && r.body.velocity == WithY(c.body.velocity, 0.0)
      && r.body.impulse == Add(c.body.impulse, Scale(Up, cfg.jumpForce))
      && r.jumpTimer == Start(c.jumpTimer)
    ensures !isJumpPressed && c.body.velocity.y > 0.0 ==>
      r.body.velocity == WithY(c.body.velocity, c.body.velocity.y * 0.5) && r.body.impulse == c.body.impulse
    ensures !CanJump(c, cfg, isJumpPressed) && (isJumpPressed || c.body.velocity.y <= 0.0) ==> r == c
    ensures r == c.(body := r.body, jumpTimer := r.jumpTimer)
    ensures r.body.force == c.body.force && r.body.drag == c.body.drag
  {
    var c1 :=
      if CanJump(c, cfg, isJumpPressed) then
        c.(body := c.body.(velocity := WithY(c.body.velocity, 0.0),
                           impulse := Add(c.body.impulse, Scale(Up, cfg.jumpForce))),
           jumpTimer := Start(c.jumpTimer))
      else c;
    if !isJumpPressed && c1.body.velocity.y > 0.0 then
      c1.(body := c1.body.(velocity := WithY(c1.body.velocity, c1.body.velocity.y * 0.5)))
    else c1
  }

  /** A jump starts the cooldown, so with a positive cooldown a second press
      right after a jump is refused; a release never jumps. */
  lemma CooldownSeparatesJumps(c: Controller, cfg: Config)
    requires c.jumpTimer.initialTime > 0.0
    ensures CanJump(c, cfg, true) ==> !CanJump(HandleJump(c, cfg, true), cfg, true)
    ensures HandleJump(c, cfg, false).body.impulse == c.body.impulse
    ensures HandleJump(c, cfg, false).body.velocity.y <= c.body.velocity.y || c.body.velocity.y <= 0.0
  {
  }

  // ---- Fixed tick ----

  /** `CheckGround` as written: the ground flag is the sensor's hit, and a
      hit resets the stopwatch to zero without starting it. */
  function CheckGroundAsWritten(c: Controller, hit: bool): (r: Controller)
    ensures r.isGrounded == hit
    ensures hit ==> r.groundedTimer == ResetStopwatch(c.groundedTimer)
    ensures !hit ==> r.groundedTimer == c.groundedTimer
    ensures r.groundedTimer.isRunning == c.groundedTimer.isRunning
    ensures r == c.(isGrounded := hit, groundedTimer := r.groundedTimer)
  {
    c.(isGrounded := hit, groundedTimer := if hit then ResetStopwatch(c.groundedTimer) else c.groundedTimer)
  }

  /** `CheckGround` as intended: seeing the ground restarts the stopwatch
      from zero and runs it, so it measures the time since the ground was
      last seen. */
  function CheckGround(c: Controller, hit: bool): (r: Controller)
    ensures r.isGrounded == hit
    ensures hit ==> r.groundedTimer.isRunning && r.groundedTimer.time == 0.0
    ensures !hit ==> r.groundedTimer == c.groundedTimer
    ensures r == c.(isGrounded := hit, groundedTimer := r.groundedTimer)
  {
    c.(isGrounded := hit, groundedTimer := if hit then StartStopwatch(c.groundedTimer) else c.groundedTimer)
  }

  /** The force factor of `MovePlayer`: 1 on the ground, `airMultiplier` in
      the air. */
  function AirFactor(isGrounded: bool, cfg: Config): (f: real)
    ensures isGrounded ==> f == 1.0
    ensures !isGrounded ==> f == cfg.airMultiplier
  {
    if isGrounded then 1.0 else cfg.airMultiplier
  }

  /** The force `MovePlayer` applies: along the normalized input direction,
      of magnitude `movementSpeed * 30` times the air factor. */
  function MoveForce(c: Controller, cfg: Config, forward: Vec3, right: Vec3, norm: Norm): Vec3 {
    var direction := Add(Scale(forward, c.verticalInput), Scale(right, c.horizontalInput));
    Scale(Normalize(direction, norm), cfg.movementSpeed * 30.0 * AirFactor(c.isGrounded, cfg))
  }

  /** `MovePlayer`: the movement force is added to the forces queued for the
      next physics step; nothing else changes. */
  function MovePlayer(c: Controller, cfg: Config, forward: Vec3, right: Vec3, norm: Norm): (r: Controller)
    ensures r == c.(body := c.body.(force := r.body.force))
    ensures Sub(r.body.force, c.body.force) == MoveForce(c, cfg, forward, right, norm)
  {
    c.(body := c.body.(force := Add(c.body.force, MoveForce(c, cfg, forward, right, norm))))
  }

  /** With no stick input there is no movement force, on the ground or in
      the air; with input, the force has squared length
      `(movementSpeed * 30 * airFactor)^2`. */
  lemma MoveForceLength(c: Controller, cfg: Config, forward: Vec3, right: Vec3, norm: Norm)
    requires NormAt(norm, Zero)
    ensures c.horizontalInput == 0.0 && c.verticalInput == 0.0 ==> MoveForce(c, cfg, forward, right, norm) == Zero
    ensures var d := Add(Scale(forward, c.verticalInput), Scale(right, c.horizontalInput));
      NormAt(norm, d) && norm(d) > 0.00001 ==>
        var f := MoveForce(c, cfg, forward, right, norm);
        var k := cfg.movementSpeed * 30.0 * AirFactor(c.isGrounded, cfg);
        Dot(f, f) == k * k
  {
    var d := Add(Scale(forward, c.verticalInput), Scale(right, c.horizontalInput));
    var k := cfg.movementSpeed * 30.0 * AirFactor(c.isGrounded, cfg);
    if c.horizontalInput == 0.0 && c.verticalInput == 0.0 {
      assert d == Zero;
      NormalizeZero(norm);
      ScaleZero(k);
    }
    if NormAt(norm, d) && norm(d) > 0.00001 {
      NormalizeIsUnit(d, norm);
      ScaledUnitLength(Normalize(d, norm), k);
    }
  }

  lemma NormalizeZero(norm: Norm)
    requires NormAt(norm, Zero)
    ensures Normalize(Zero, norm) == Zero
  {
    if norm(Zero) > 0.0 {
      MulPositive(norm(Zero), norm(Zero));
    }
  }

  lemma ScaleZero(k: real)
    ensures Scale(Zero, k) == Zero
  {
  }

  /** `HandleDrag`: `groundDrag` on the ground, none in the air. */
  function HandleDrag(c: Controller, cfg: Config): (r: Controller)
    ensures c.isGrounded ==> r.body.drag == cfg.groundDrag
    ensures !c.isGrounded ==> r.body.drag == 0.0
    ensures r == c.(body := c.body.(drag := r.body.drag))
  {
    c.(body := c.body.(drag := if c.isGrounded then cfg.groundDrag else 0.0))
  }

  /** `HandleSpeedLimit`: a horizontal speed above `movementSpeed` is cut
      to `movementSpeed` in the same direction; the vertical speed is kept. */
  function LimitSpeed(v: Vec3, cap: real, norm: Norm): (r: Vec3)
    ensures r.y == v.y
    ensures norm(WithY(v, 0.0)) <= cap ==> r == v
    ensures norm(WithY(v, 0.0)) > cap ==> WithY(r, 0.0) == Scale(Normalize(WithY(v, 0.0), norm), cap)
  {
    var flat := WithY(v, 0.0);
    if norm(flat) > cap then WithY(Scale(Normalize(flat, norm), cap), v.y) else v
  }

  /** A clamped velocity has horizontal speed exactly `cap`, and the clamp
      is idempotent for the same input. */
  lemma LimitSpeedReachesCap(v: Vec3, cap: real, norm: Norm)
    requires NormAt(norm, WithY(v, 0.0)) && norm(WithY(v, 0.0)) > cap && norm(WithY(v, 0.0)) > 0.00001
    ensures var f := WithY(LimitSpeed(v, cap, norm), 0.0); Dot(f, f) == cap * cap
  {
    var flat := WithY(v, 0.0);
    NormalizeIsUnit(flat, norm);
    ScaledUnitLength(Normalize(flat, norm), cap);
  }

  /** What a fixed tick reads from outside: the sensor's hit and the
      orientation's axes. */
  datatype Sensing = Sensing(hit: bool, forward: Vec3, right: Vec3)

  /** Which ground check the tick runs. */
  datatype Variant = AsWritten | Corrected

  /** `FixedUpdate`: ground check, movement force, drag, speed limit. It
      works on the body as the input callbacks left it, so a velocity that
      `HandleJump` wrote and the impulse it queued since the last physics
      step are still there for the physics step that follows. */
  function FixedTick(c: Controller, cfg: Config, s: Sensing, norm: Norm, variant: Variant): (r: Controller)
    ensures r.isGrounded == s.hit
    ensures r.body.velocity == LimitSpeed(c.body.velocity, cfg.movementSpeed, norm)
    ensures r.body.impulse == c.body.impulse
    ensures r.body.force == Add(c.body.force, MoveForce(c.(isGrounded := s.hit), cfg, s.forward, s.right, norm))
    ensures s.hit ==> r.body.drag == cfg.groundDrag
    ensures !s.hit ==> r.body.drag == 0.0 && r.groundedTimer == c.groundedTimer
    ensures r.jumpTimer == c.jumpTimer
  {
    var c1 := match variant
      case AsWritten => CheckGroundAsWritten(c, s.hit)
      case Corrected => CheckGround(c, s.hit);
    assert MoveForce(c1, cfg, s.forward, s.right, norm) == MoveForce(c.(isGrounded := s.hit), cfg, s.forward, s.right, norm);
    var c2 := HandleDrag(MovePlayer(c1, cfg, s.forward, s.right, norm), cfg);
    c2.(body := c2.body.(velocity := LimitSpeed(c2.body.velocity, cfg.movementSpeed, norm)))
  }

  /** The physics step that follows each `FixedUpdate`: the engine
      integrates the queued impulses and forces, with the drag, into a new
      velocity, and empties both queues. The integration is the engine's,
      so the resulting velocity is an input here. */
  function PhysicsStep(c: Controller, velocity: Vec3): (r: Controller)
    ensures r.body == Body(velocity, Zero, Zero, c.body.drag)
    ensures r == c.(body := r.body)
  {
    c.(body := Body(velocity, Zero, Zero, c.body.drag))
  }

  /** A jump press reaches the physics step: after the press and the next
      fixed tick, the vertical velocity is still zero and the impulse of
      `jumpForce` is still queued, whatever the ground check sees. */
  lemma JumpReachesPhysicsStep(c: Controller, cfg: Config, s: Sensing, norm: Norm, variant: Variant)
    requires CanJump(c, cfg, true)
    ensures var r := FixedTick(HandleJump(c, cfg, true), cfg, s, norm, variant);
      && r.body.velocity.y == 0.0
      && r.body.impulse == Add(c.body.impulse, Scale(Up, cfg.jumpForce))
      && r.jumpTimer == Start(c.jumpTimer)
  {
  }

  /** `Update`: both timers advance by the frame time. */
  function FrameTick(c: Controller, dt: real): (r: Controller)
    ensures r == c.(jumpTimer := Tick(c.jumpTimer, dt), groundedTimer := TickStopwatch(c.groundedTimer, dt))
  {
    c.(jumpTimer := Tick(c.jumpTimer, dt), groundedTimer := TickStopwatch(c.groundedTimer, dt))
  }

  datatype Event =
    | Fixed(sensing: Sensing)
    | Physics(velocity: Vec3)
    | Frame(dt: real)
    | JumpInput(isPressed: bool)
    | MoveInput(x: real, y: real)

  function Step(c: Controller, cfg: Config, e: Event, norm: Norm, variant: Variant): Controller {
    match e
    case Fixed(s) => FixedTick(c, cfg, s, norm, variant)
    case Physics(v) => PhysicsStep(c, v)
    case Frame(dt) => FrameTick(c, dt)
    case JumpInput(p) => HandleJump(c, cfg, p)
    case MoveInput(x, y) => HandleMovementInput(c, x, y)
  }

  function Run(c: Controller, cfg: Config, events: seq<Event>, norm: Norm, variant: Variant): Controller
    decreases |events|
  {
    if |events| == 0 then c else Run(Step(c, cfg, events[0], norm, variant), cfg, events[1..], norm, variant)
  }

  /** A run over two event sequences in a row is the second run started
      where the first one ended: nothing but the controller record carries
      over from one event to the next. */
  lemma {:induction false} RunAppend(c: Controller, cfg: Config, a: seq<Event>, b: seq<Event>, norm: Norm, variant: Variant)
    ensures Run(c, cfg, a + b, norm, variant) == Run(Run(c, cfg, a, norm, variant), cfg, b, norm, variant)
    decreases |a|
  {
    if |a| == 0 {
      assert a + b == b;
    } else {
      assert (a + b)[0] == a[0];
      assert (a + b)[1..] == a[1..] + b;
      RunAppend(Step(c, cfg, a[0], norm, variant), cfg, a[1..], b, norm, variant);
    }
  }

  // ---- Coyote time ----

  /** As written, nothing ever starts the stopwatch: whatever happens, it
      stays stopped at zero. */
  lemma {:induction false} AsWrittenStopwatchNeverRuns(c: Controller, cfg: Config, events: seq<Event>, norm: Norm)
    requires c.groundedTimer == NewStopwatch()
    ensures Run(c, cfg, events, norm, AsWritten).groundedTimer == NewStopwatch()
    decreases |events|
  {
    if |events| > 0 {
      var c1 := Step(c, cfg, events[0], norm, AsWritten);
      assert c1.groundedTimer == NewStopwatch() by {
        match events[0]
        case Fixed(s) =>
        case Physics(v) =>
        case Frame(dt) =>
        case JumpInput(p) =>
        case MoveInput(x, y) =>
      }
      AsWrittenStopwatchNeverRuns(c1, cfg, events[1..], norm);
    }
  }

  /** Hence, as written, the coyote window never closes: after any history,
      a press in mid-air jumps whenever the cooldown allows it. */
  lemma AsWrittenJumpsInMidAir(cfg: Config, events: seq<Event>, norm: Norm)
    requires cfg.coyoteTime > 0.0
    ensures var c := Run(Init(cfg), cfg, events, norm, AsWritten);
      CanJump(c, cfg, true) <==> CooldownOver(c)
  {
    AsWrittenStopwatchNeverRuns(Init(cfg), cfg, events, norm);
  }

  /** The time that the frames of an event sequence add up to. */
  function FrameTime(events: seq<Event>): real
    decreases |events|
  {
    if |events| == 0 then 0.0
    else (if events[0].Frame? then events[0].dt else 0.0) + FrameTime(events[1..])
  }

  /** No fixed tick in the sequence sees the ground. */
  predicate NoGroundSeen(events: seq<Event>) {
    forall i :: 0 <= i < |events| ==> events[i].Fixed? ==> !events[i].sensing.hit
  }

  /** With the intended ground check, once the ground has been seen the
      stopwatch runs and, while no tick sees ground, reads exactly the frame
      time that has passed since. */
  lemma {:induction false} CorrectedStopwatchMeasuresAirTime(c: Controller, cfg: Config, events: seq<Event>, norm: Norm)
    requires c.groundedTimer.isRunning && NoGroundSeen(events)
    ensures Run(c, cfg, events, norm, Corrected).groundedTimer == c.groundedTimer.(time := c.groundedTimer.time + FrameTime(events))
    ensures |events| > 0 && events[0].Fixed? ==> !Run(c, cfg, events, norm, Corrected).isGrounded
    ensures !c.isGrounded ==> !Run(c, cfg, events, norm, Corrected).isGrounded
    decreases |events|
  {
    if |events| > 0 {
      var c1 := Step(c, cfg, events[0], norm, Corrected);
      assert c1.groundedTimer == c.groundedTimer.(time := c.groundedTimer.time + (if events[0].Frame? then events[0].dt else 0.0));
      assert events[0].Fixed? ==> !c1.isGrounded;
      assert !c.isGrounded ==> !c1.isGrounded;
      assert NoGroundSeen(events[1..]) by {
        forall i | 0 <= i < |events[1..]| ensures events[1..][i].Fixed? ==> !events[1..][i].sensing.hit {
          assert events[1..][i] == events[i + 1];
        }
      }
      CorrectedStopwatchMeasuresAirTime(c1, cfg, events[1..], norm);
    }
  }

  /** With the intended ground check, the coyote window closes: after
      leaving the ground, once `coyoteTime` of frames has passed with no
      ground seen, no press can jump. */
  lemma CorrectedCoyoteWindowCloses(c: Controller, cfg: Config, events: seq<Event>, norm: Norm)
    requires c.groundedTimer.isRunning && !c.isGrounded && NoGroundSeen(events)
    requires c.groundedTimer.time + FrameTime(events) >= cfg.coyoteTime
    ensures forall p :: !CanJump(Run(c, cfg, events, norm, Corrected), cfg, p)
  {
    CorrectedStopwatchMeasuresAirTime(c, cfg, events, norm);
  }

  /** And it is open right after the ground was last seen: a grounded tick
      followed by less than `coyoteTime` of frames still allows a jump. */
  lemma CorrectedCoyoteWindowOpen(c: Controller, cfg: Config, s: Sensing, events: seq<Event>, norm: Norm)
    requires s.hit && NoGroundSeen(events) && FrameTime(events) < cfg.coyoteTime
    ensures var r := Run(FixedTick(c, cfg, s, norm, Corrected), cfg, events, norm, Corrected);
      CooldownOver(r) ==> CanJump(r, cfg, true)
  {
    CorrectedStopwatchMeasuresAirTime(FixedTick(c, cfg, s, norm, Corrected), cfg, events, norm);
  }
}
