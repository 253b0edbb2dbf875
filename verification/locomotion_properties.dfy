/** Properties of the newest controller's machine as a whole: the shape of
    the transition table, the guards that decide between sliding and
    crouching, what a fixed tick does in the common situations (a jump from
    the ground, a coyote jump, a slide, a landing), and what a run of events
    keeps. */
module LocomotionProperties {
  import opened Vectors
  import opened Timers
  import opened InputLatch
  import opened Locomotion
  import FpsStates
  import JumpMovement
  import SlideMovement
  import ClimbMovement
  import opened LocomotionMachine

  /** The machine starts in Falling; no declared transition returns to the
      state it leaves; Climbing is entered only from Jumping, Rising or
      Falling and left only to Falling. */
  lemma TableShape(cfg: Config, body: Body, a: State, b: State)
    ensures Init(cfg, body).state == InitialState
    ensures Declared(a, b) ==> a != b
    ensures Declared(a, Climbing) ==> a == Jumping || a == Rising || a == Falling
    ensures Declared(Climbing, b) ==> b == Falling
  {
    TableGroupedBySource();
    if Declared(a, b) {
      var i :| 0 <= i < |Transitions| && Transitions[i].from == a && Transitions[i].to == b;
      assert Allowed(Transitions[i]);
    }
  }

  /** One fixed tick of the machine either keeps the state or enters
      Climbing from Jumping, Rising or Falling, or leaves Climbing for
      Falling, or moves along another declared pair. */
  lemma ClimbingEdges(c: Controller, cfg: Config, s: Sensing, norm: Norm, angle: (Vec3, Vec3) -> real)
    ensures var r := MachineFixedUpdate(c, cfg, s, norm, angle);
      && (r.state == Climbing && c.state != Climbing ==> c.state == Jumping || c.state == Rising || c.state == Falling)
      && (c.state == Climbing && r.state != Climbing ==> r.state == Falling)
  {
    TableShape(cfg, c.body, c.state, MachineFixedUpdate(c, cfg, s, norm, angle).state);
  }

  /** The first enabled transition is the one taken: when entry `k` is
      enabled and none before it is, the machine moves to `k`'s target. */
  lemma {:induction false} FirstEnabledPicks(ts: seq<Transition>, c: Controller, cfg: Config, isGrounded: bool, norm: Norm, k: nat)
    requires k < |ts| && Enabled(ts[k], c, cfg, isGrounded, norm)
    requires forall j :: 0 <= j < k ==> !Enabled(ts[j], c, cfg, isGrounded, norm)
    ensures FirstEnabled(ts, c, cfg, isGrounded, norm) == MoveTo(ts[k].to)
    decreases k
  {
    if k > 0 {
      assert !Enabled(ts[0], c, cfg, isGrounded, norm);
      assert forall j :: 0 <= j < k - 1 ==> ts[1..][j] == ts[j + 1];
      FirstEnabledPicks(ts[1..], c, cfg, isGrounded, norm, k - 1);
    }
  }

  /** From Grounded the slide guard and the crouch guard never both hold;
      each needs crouch intent; at a speed exactly equal to the minimum
      slide speed neither holds. */
  lemma GroundedGuardsExclusive(c: Controller, cfg: Config, isGrounded: bool, norm: Norm)
    ensures !(GuardHolds(SlideEntry, c, cfg, isGrounded, norm) && GuardHolds(CrouchEntry, c, cfg, isGrounded, norm))
    ensures GuardHolds(SlideEntry, c, cfg, isGrounded, norm) ==> IsCrouching(c)
    ensures GuardHolds(CrouchEntry, c, cfg, isGrounded, norm) ==> IsCrouching(c)
    ensures norm(c.body.velocity) == cfg.minimumSlideVelocity ==>
      !GuardHolds(SlideEntry, c, cfg, isGrounded, norm) && !GuardHolds(CrouchEntry, c, cfg, isGrounded, norm)
    ensures IsCrouching(c) && isGrounded && norm(c.body.velocity) != cfg.minimumSlideVelocity ==>
      GuardHolds(SlideEntry, c, cfg, isGrounded, norm) || GuardHolds(CrouchEntry, c, cfg, isGrounded, norm)
  {
  }

  /** When no transition is enabled, the machine's fixed tick is the state's
      fixed update alone. */
  lemma QuietTick(c: Controller, cfg: Config, s: Sensing, norm: Norm, angle: (Vec3, Vec3) -> real)
    requires FirstEnabled(Transitions, FpsStates.FixedUpdate(c, cfg, s, norm, angle), cfg, s.isGrounded, norm) == Stay
    ensures MachineFixedUpdate(c, cfg, s, norm, angle) == FpsStates.FixedUpdate(c, cfg, s, norm, angle)
    ensures MachineFixedUpdate(c, cfg, s, norm, angle).state == c.state
  {
  }

  /** An input edge is seen by exactly one fixed tick: after the tick no
      jump can start until the key is pressed again. */
  lemma NoJumpWithoutFreshPress(c: Controller, cfg: Config, s: Sensing, norm: Norm, angle: (Vec3, Vec3) -> real, isGrounded: bool)
    requires ValidConfig(cfg)
    ensures !JumpMovement.IsEnteringJump(FixedTick(c, cfg, s, norm, angle), isGrounded)
  {
  }

  /** Scenario: jump from the ground. A fresh, unlocked press while grounded
      in Grounded moves the machine to Jumping in the same tick, with the
      jump impulse added to the tick's movement impulse; the coyote window
      opens, the extended ground probe is switched off, and, since the tick
      ends by clearing it, the jump lock is clear again afterwards. */
  lemma GroundJump(c: Controller, cfg: Config, s: Sensing, norm: Norm, angle: (Vec3, Vec3) -> real)
    requires ValidConfig(cfg)
    requires c.state == Grounded && s.isGrounded
    requires c.jumpKey.pressed && !c.jumpKeyIsLocked && !c.isExitingCrouch
    ensures var r := FixedTick(c, cfg, s, norm, angle);
      && r.state == Jumping
      && r.body.impulse == Add(MovementVelocity(c, cfg, s, norm), Scale(Up, cfg.jumpForce))
      && r.coyoteTimer.isRunning && r.coyoteTimer.time == c.coyoteTimer.initialTime
      && !r.body.useExtendedCastLength
      && !r.jumpKeyIsLocked && r.jumpKey.held == c.jumpKey.held
      && r.body.drag == cfg.groundDrag
  {
    GroundJumpMachineStep(c, cfg, s, norm, angle);
    assert FixedTick(c, cfg, s, norm, angle) == AfterMachine(MachineFixedUpdate(SenseBody(c, s), cfg, s, norm, angle), cfg, s, norm);
  }

  /** The machine part of the jump from the ground. */
  lemma GroundJumpMachineStep(c: Controller, cfg: Config, s: Sensing, norm: Norm, angle: (Vec3, Vec3) -> real)
    requires c.state == Grounded && s.isGrounded
    requires c.jumpKey.pressed && !c.jumpKeyIsLocked && !c.isExitingCrouch
    ensures var m := MachineFixedUpdate(SenseBody(c, s), cfg, s, norm, angle);
      && m.state == Jumping && m.body.impulse == Add(MovementVelocity(c, cfg, s, norm), Scale(Up, cfg.jumpForce))
      && m.coyoteTimer.isRunning && m.coyoteTimer.time == c.coyoteTimer.initialTime
      && !m.body.useExtendedCastLength
  {
    var c0 := SenseBody(c, s);
    var c1 := FpsStates.FixedUpdate(c0, cfg, s, norm, angle);
    var mv := MovementVelocity(c, cfg, s, norm);
    assert c1.body.impulse == mv by {
      MovementVelocityInputs(c0, c, cfg, s, norm);
      ZeroAndOne(c1.body.impulse, Scale(mv, 1.0));
      ZeroAndOne(mv, mv);
    }
    assert FirstEnabled(Transitions, c1, cfg, s.isGrounded, norm) == MoveTo(Jumping) by {
      assert Enabled(Transitions[5], c1, cfg, s.isGrounded, norm);
      FirstEnabledPicks(Transitions, c1, cfg, s.isGrounded, norm, 5);
    }
    assert MachineFixedUpdate(c0, cfg, s, norm, angle) == ChangeState(c1, Jumping, cfg, s, norm);
    EnterJumping(c1, cfg, s, norm);
  }

  /** Scenario: coyote jump. Falling off an edge with the coyote window still
      open, a fresh unlocked press moves the machine to Jumping, with the jump
      impulse on top of the airborne movement impulse and gravity. */
  lemma CoyoteJump(c: Controller, cfg: Config, s: Sensing, norm: Norm, angle: (Vec3, Vec3) -> real)
    requires ValidConfig(cfg)
    requires c.state == Falling && !s.isGrounded && c.coyoteTimer.isRunning
    requires c.jumpKey.pressed && !c.jumpKeyIsLocked && !c.isExitingCrouch
    ensures var r := FixedTick(c, cfg, s, norm, angle);
      && r.state == Jumping
      && r.body.impulse == Add(Add(Scale(MovementVelocity(c, cfg, s, norm), 0.8), Scale(Up, cfg.jumpForce)),
                               Vec3(0.0, -cfg.gravityScale, 0.0))
      && !r.jumpKeyIsLocked && r.body.drag == 0.0
  {
    CoyoteMachineStep(c, cfg, s, norm, angle);
    assert FixedTick(c, cfg, s, norm, angle) == AfterMachine(MachineFixedUpdate(SenseBody(c, s), cfg, s, norm, angle), cfg, s, norm);
  }

  /** The machine part of the coyote jump. */
  lemma CoyoteMachineStep(c: Controller, cfg: Config, s: Sensing, norm: Norm, angle: (Vec3, Vec3) -> real)
    requires c.state == Falling && !s.isGrounded && c.coyoteTimer.isRunning
    requires c.jumpKey.pressed && !c.jumpKeyIsLocked && !c.isExitingCrouch
    ensures var m := MachineFixedUpdate(SenseBody(c, s), cfg, s, norm, angle);
      m.state == Jumping && m.body.impulse == Add(Scale(MovementVelocity(c, cfg, s, norm), 0.8), Scale(Up, cfg.jumpForce))
  {
    var c0 := SenseBody(c, s);
    var c1 := FpsStates.FixedUpdate(c0, cfg, s, norm, angle);
    var mv := MovementVelocity(c, cfg, s, norm);
    assert c1.body.impulse == Scale(mv, 0.8) by {
      MovementVelocityInputs(c0, c, cfg, s, norm);
      ZeroAndOne(c1.body.impulse, Scale(mv, 0.8));
    }
    assert FirstEnabled(Transitions, c1, cfg, s.isGrounded, norm) == MoveTo(Jumping) by {
      assert Enabled(Transitions[6], c1, cfg, s.isGrounded, norm);
      FirstEnabledPicks(Transitions, c1, cfg, s.isGrounded, norm, 6);
    }
    assert MachineFixedUpdate(c0, cfg, s, norm, angle) == ChangeState(c1, Jumping, cfg, s, norm);
    EnterJumping(c1, cfg, s, norm);
  }

  /** Entering Jumping without the lock adds exactly the jump impulse,
      whatever state is left: no exit hook pushes the body. */
  lemma EnterJumping(c: Controller, cfg: Config, s: Sensing, norm: Norm)
    requires !c.jumpKeyIsLocked
    ensures var r := ChangeState(c, Jumping, cfg, s, norm);
      r.state == Jumping && r.jumpKeyIsLocked && r.body.impulse == Add(c.body.impulse, Scale(Up, cfg.jumpForce))
  {
  }

  /** Scenario: slide. Crouching on the ground above the minimum slide speed,
      with no jump starting, moves the machine from Grounded to Sliding: the
      body crouches, the speed cap becomes the flat speed measured against
      the slope normal of the previous tick, the slide drag applies, and the
      coyote window opens. */
  lemma GroundSlide(c: Controller, cfg: Config, s: Sensing, norm: Norm, angle: (Vec3, Vec3) -> real)
    requires ValidConfig(cfg)
    requires c.state == Grounded && s.isGrounded && IsCrouching(c)
    requires !JumpMovement.IsEnteringJump(c, s.isGrounded)
    requires norm(s.velocity) > cfg.minimumSlideVelocity
    ensures var r := FixedTick(c, cfg, s, norm, angle);
      && r.state == Sliding && r.body.isCrouching
      && r.currentMaxSpeed == norm(RemoveDot(s.velocity, c.slopeNormal))
      && r.body.drag == cfg.slideDragRatio
      && r.coyoteTimer.isRunning
  {
    GroundSlideMachineStep(c, cfg, s, norm, angle);
    assert FixedTick(c, cfg, s, norm, angle) == AfterMachine(MachineFixedUpdate(SenseBody(c, s), cfg, s, norm, angle), cfg, s, norm);
  }

  /** The machine part of the slide. */
  lemma GroundSlideMachineStep(c: Controller, cfg: Config, s: Sensing, norm: Norm, angle: (Vec3, Vec3) -> real)
    requires c.state == Grounded && s.isGrounded && IsCrouching(c)
    requires !JumpMovement.IsEnteringJump(c, s.isGrounded)
    requires norm(s.velocity) > cfg.minimumSlideVelocity
    ensures var m := MachineFixedUpdate(SenseBody(c, s), cfg, s, norm, angle);
      && m.state == Sliding && m.body.isCrouching && m.coyoteTimer.isRunning
      && m.currentMaxSpeed == norm(RemoveDot(s.velocity, c.slopeNormal))
  {
    var c0 := SenseBody(c, s);
    var c1 := FpsStates.FixedUpdate(c0, cfg, s, norm, angle);
    assert c1 == c0.(body := c1.body) && c1.body.velocity == s.velocity;
    assert FirstEnabled(Transitions, c1, cfg, s.isGrounded, norm) == MoveTo(Sliding) by {
      assert SlideMovement.IsSliding(c1, cfg, s.isGrounded, norm);
      GroundSlideChoice(c1, cfg, s.isGrounded, norm);
    }
    MachineMovesTo(c0, cfg, s, norm, angle, Sliding);
    SlideEntryChange(c1, cfg, s, norm);
  }

  lemma SlideEntryChange(c: Controller, cfg: Config, s: Sensing, norm: Norm)
    requires c.state == Grounded
    ensures var m := ChangeState(c, Sliding, cfg, s, norm);
      && m.state == Sliding && m.body.isCrouching && m.coyoteTimer.isRunning
      && m.currentMaxSpeed == norm(RemoveDot(c.body.velocity, c.slopeNormal))
  {
    var g := FpsStates.OnExit(Grounded, c).(state := Sliding);
    assert ChangeState(c, Sliding, cfg, s, norm) == SlideMovement.OnSlideEnter(g, cfg, s, norm);
    assert g.body.velocity == c.body.velocity && g.slopeNormal == c.slopeNormal && g.coyoteTimer.isRunning;
  }

  lemma GroundSlideChoice(c: Controller, cfg: Config, isGrounded: bool, norm: Norm)
    requires c.state == Grounded && isGrounded
    requires !JumpMovement.IsEnteringJump(c, isGrounded) && SlideMovement.IsSliding(c, cfg, isGrounded, norm)
    ensures FirstEnabled(Transitions, c, cfg, isGrounded, norm) == MoveTo(Sliding)
  {
    assert Enabled(Transitions[9], c, cfg, isGrounded, norm);
    FirstEnabledPicks(Transitions, c, cfg, isGrounded, norm, 9);
  }

  /** Scenario: landing. Falling onto the ground moves the machine to
      Grounded: both exit guards drop, the extended ground probe is switched
      on, and the speed easing restarts towards the movement speed. */
  lemma Landing(c: Controller, cfg: Config, s: Sensing, norm: Norm, angle: (Vec3, Vec3) -> real)
    requires ValidConfig(cfg)
    requires c.state == Falling && s.isGrounded
    ensures var r := FixedTick(c, cfg, s, norm, angle);
      && r.state == Grounded && !r.isExitingClimb && !r.isExitingCrouch
      && r.body.useExtendedCastLength
      && r.currentMaxSpeed == cfg.movementSpeed
      && r.changeStateTimer.isRunning && r.changeStateTimer.time == 0.0
  {
    LandingMachineStep(c, cfg, s, norm, angle);
    assert FixedTick(c, cfg, s, norm, angle) == AfterMachine(MachineFixedUpdate(SenseBody(c, s), cfg, s, norm, angle), cfg, s, norm);
  }

  /** The machine part of the landing. */
  lemma LandingMachineStep(c: Controller, cfg: Config, s: Sensing, norm: Norm, angle: (Vec3, Vec3) -> real)
    requires c.state == Falling && s.isGrounded
    ensures var m := MachineFixedUpdate(SenseBody(c, s), cfg, s, norm, angle);
      && m.state == Grounded && !m.isExitingClimb && !m.isExitingCrouch && m.body.useExtendedCastLength
      && m.currentMaxSpeed == cfg.movementSpeed && m.changeStateTimer.isRunning && m.changeStateTimer.time == 0.0
  {
    var c0 := SenseBody(c, s);
    var c1 := FpsStates.FixedUpdate(c0, cfg, s, norm, angle);
    assert FirstEnabled(Transitions, c1, cfg, s.isGrounded, norm) == MoveTo(Grounded) by {
      assert Enabled(Transitions[0], c1, cfg, s.isGrounded, norm);
      FirstEnabledPicks(Transitions, c1, cfg, s.isGrounded, norm, 0);
    }
    assert MachineFixedUpdate(c0, cfg, s, norm, angle) == ChangeState(c1, Grounded, cfg, s, norm);
  }

  predicate Airborne(st: State) {
    st == Falling || st == Rising || st == Jumping
  }

  /** One fixed tick off the ground after a climb: the machine stays among
      Falling, Rising and Jumping and the climb exit guard stays raised. */
  lemma AirborneTickKeepsClimbShut(c: Controller, cfg: Config, s: Sensing, norm: Norm, angle: (Vec3, Vec3) -> real)
    requires ValidConfig(cfg)
    requires Airborne(c.state) && !s.isGrounded && c.isExitingClimb
    ensures Airborne(FixedTick(c, cfg, s, norm, angle).state)
    ensures FixedTick(c, cfg, s, norm, angle).isExitingClimb
  {
    var c0 := SenseBody(c, s);
    var c1 := FpsStates.FixedUpdate(c0, cfg, s, norm, angle);
    assert c1.state == c.state && c1.isExitingClimb;
    AirborneChoice(c1, cfg, s.isGrounded, norm);
    var m := MachineFixedUpdate(c0, cfg, s, norm, angle);
    match FirstEnabled(Transitions, c1, cfg, s.isGrounded, norm)
    case Stay =>
      assert m == c1;
    case MoveTo(to) =>
      assert m == ChangeState(c1, to, cfg, s, norm);
  }

  /** Off the ground with the climb exit guard raised, the transition taken
      from Falling, Rising or Jumping leads to one of them. */
  lemma AirborneChoice(c: Controller, cfg: Config, isGrounded: bool, norm: Norm)
    requires Airborne(c.state) && !isGrounded && c.isExitingClimb
    ensures var choice := FirstEnabled(Transitions, c, cfg, isGrounded, norm);
      choice.MoveTo? ==> Airborne(choice.to)
  {
    var choice := FirstEnabled(Transitions, c, cfg, isGrounded, norm);
    FirstEnabledIsDeclared(c, cfg, isGrounded, norm);
    if choice.MoveTo? {
      var t :| Allowed(t) && Enabled(t, c, cfg, isGrounded, norm) && t.to == choice.to;
      assert GuardHolds(t.guard, c, cfg, isGrounded, norm);
      assert t.guard != OnGround;
      assert t.guard != ClimbEntry;
      assert Airborne(t.to);
    }
  }

  /** Scenario: after a climb ends, however the keys, the wall and the frames
      go, the machine cannot climb again until a fixed tick finds ground. */
  lemma {:induction false} ClimbShutUntilGrounded(c: Controller, cfg: Config, events: seq<Event>, norm: Norm, angle: (Vec3, Vec3) -> real)
    requires ValidConfig(cfg)
    requires Airborne(c.state) && c.isExitingClimb
    requires forall i :: 0 <= i < |events| && events[i].Fixed? ==> !events[i].sensing.isGrounded
    ensures Airborne(Run(c, cfg, events, norm, angle).state)
    ensures Run(c, cfg, events, norm, angle).isExitingClimb
    decreases |events|
  {
    if |events| > 0 {
      var next := Step(c, cfg, events[0], norm, angle);
      StepKeepsClimbShut(c, cfg, events[0], norm, angle);
      assert forall i :: 0 <= i < |events[1..]| ==> events[1..][i] == events[i + 1];
      ClimbShutUntilGrounded(next, cfg, events[1..], norm, angle);
    }
  }

  /** One event of any kind, other than a grounded fixed tick, keeps the
      machine airborne with the climb exit guard raised. */
  lemma StepKeepsClimbShut(c: Controller, cfg: Config, e: Event, norm: Norm, angle: (Vec3, Vec3) -> real)
    requires ValidConfig(cfg)
    requires Airborne(c.state) && c.isExitingClimb
    requires e.Fixed? ==> !e.sensing.isGrounded
    ensures Airborne(Step(c, cfg, e, norm, angle).state) && Step(c, cfg, e, norm, angle).isExitingClimb
  {
    match e
    case Fixed(s) => AirborneTickKeepsClimbShut(c, cfg, s, norm, angle);
    case Frame(dt, w) =>
    case JumpInput(p) =>
    case CrouchInput(p) =>
    case MoveInput(v) =>
  }

  /** A run of frames with a fixed wall reading. */
  function Frames(c: Controller, dts: seq<real>, w: WallReading): Controller
    decreases |dts|
  {
    if |dts| == 0 then c else Frames(FrameTick(c, dts[0], w), dts[1..], w)
  }

  /** Frames tick the coyote countdown by their total time and change
      neither the state nor the keys. */
  lemma {:induction false} FramesTickCoyote(c: Controller, dts: seq<real>, w: WallReading)
    ensures Frames(c, dts, w).coyoteTimer == TickAll(c.coyoteTimer, dts)
    ensures Frames(c, dts, w).state == c.state && SameKeys(Frames(c, dts, w), c)
    ensures Frames(c, dts, w).jumpKeyIsLocked == c.jumpKeyIsLocked
    ensures Frames(c, dts, w).isExitingCrouch == c.isExitingCrouch
    decreases |dts|
  {
    if |dts| > 0 {
      FramesTickCoyote(FrameTick(c, dts[0], w), dts[1..], w);
    }
  }

  /** The coyote window closes: once frames totalling the coyote time have
      passed since the body left the ground, a press off the ground no
      longer starts a jump. */
  lemma CoyoteWindowCloses(c: Controller, cfg: Config, dts: seq<real>, w: WallReading)
    requires c.coyoteTimer.initialTime == cfg.coyoteTime && cfg.coyoteTime > 0.0
    requires AllNonNegative(dts) && Sum(dts) >= cfg.coyoteTime
    ensures var after := Frames(StartCoyoteTimer(c), dts, w);
      !IsCoyoteJumpAllowed(after) && !JumpMovement.IsEnteringJump(after, false)
  {
    var started := StartCoyoteTimer(c);
    FramesTickCoyote(started, dts, w);
    ExpiresAfterTime(started.coyoteTimer, dts);
  }
}
