# FPS movement controller: a Dafny model of its decision layer

The repository is a first-person movement controller for Unity, built in
three generations. This project models the discrete decision layer of each
generation and the ground sensor they share. It proves properties about
that layer:

- **The newest controller** (`Runtime/Scripts/Movements`). A seven-state
  machine: Grounded, Jumping, Falling, Rising, Crouching, Sliding, Climbing.
  - Each state's behaviour lives in a component: ground, jump, crouch,
    slide and climb movement.
  - The controller owns three things: the edge-triggered key latches with
    the jump lock, the coyote timer, and the velocity pipeline. The
    pipeline runs movement velocity, gravity, ground adjustment, drag and
    an eased speed limit.
  - Modules: `Locomotion`, `GroundMovement`, `JumpMovement`,
    `CrouchMovement`, `SlideMovement`, `ClimbMovement`, `FpsStates`,
    `LocomotionMachine`, `LocomotionProperties`, `SpeedLimit`,
    `InputLatch`.
- **The intermediate momentum controller** (`Runtime/Movements/PlayerController.cs`
  with its `FPSStates.cs`). Four states; the vertical motion is carried in
  a momentum vector. Module `MomentumController`.
- **The oldest controller** (`Runtime/Movements/PlayerMovements.cs`). A
  jump cooldown, a coyote window measured by a stopwatch, a force-based
  movement, drag and a flat speed cap. Module `LegacyMovements`.
- **The ground sensor** (`Runtime/Movements/PlayerMover.cs` and
  `Runtime/Movements/Sensors/RaycastSensor.cs`):
  - the collider dimensions;
  - the cast length with and without the extended range;
  - the ground-adjustment velocity;
  - the sensor's layer mask, rebuilt from the physics collision matrix as a
    `bv32`.

  Modules `PlayerMover`, `RaycastSensor`, `LayerMasks`.

Shared vocabulary:

- `Vectors`: `Vec3` over `real`.
- `Timers`: the countdown and stopwatch timers.

Vector lengths are taken through an abstract `norm` function. Wherever a
property needs it, the caller states `NormAt(norm, v)`, meaning
`norm(v)² == v·v`.

Every controller is a pure function on an immutable record:

- a fixed tick maps (controller, sensed inputs) to a controller;
- a frame tick advances the timers;
- an input callback records a key edge.

Runs over sequences of these events state the multi-step properties, for
example:

- a jump needs a fresh press;
- the coyote window closes after `coyoteTime` (over runs of frame ticks
  for the current controller, over full runs for the oldest one);
- Climbing cannot be re-entered before landing;
- the intermediate controller's momentum stays vertical.

The engine primitives the code calls are modelled as follows:

- **The state machine** (`StateMachine`). A fixed tick first runs the
  current state's `FixedUpdate`. It then takes the first transition, in
  declaration order, whose source is the current state and whose guard
  holds. It runs the old state's `OnExit`, switches state and runs the new
  state's `OnEnter`. A frame runs only the current state's `Update`.
- **The timers.**
  - A countdown holds an initial time, a remaining time and a running flag.
    `Start` reloads and runs it. `Tick` subtracts while running and stops
    when the time is used up. It is finished when the remaining time is
    ≤ 0.
  - A stopwatch holds a time and a running flag. `Start` restarts it from
    0 and runs it. `Reset` sets the time to 0 and keeps the running flag.
    `Tick` adds only while it is running.
- **The rigidbody.** `AddForce` impulses accumulate in an `impulse`
  field. Velocity writes, drag and the crouch and cast-range flags are
  record fields.

## Verifying

All `.dfy` files form one program and are given to Dafny 4.11 together:

    dafny verify --resource-limit 2000000 --verification-time-limit 0 --warn-contradictory-assumptions *.dfy

The proofs are split so that each stays below that resource limit, which
also keeps each of them well inside the default time limit of a plain
`dafny verify *.dfy`.

## Model

| member | source | states |
|---|---|---|
| `Locomotion.Init` | Runtime/Scripts/Movements/PlayerController.cs:77-88 | a fresh controller is in Falling with both key latches idle, no jump lock, no exit flag and a stopped coyote countdown loaded with `coyoteTime`; the speed cap starts at 0 |
| `Locomotion.SpeedRatio` | Runtime/Scripts/Movements/PlayerController.cs:424-435 | every state scales the movement velocity by a ratio in (0, 1] |
| `Locomotion.HandleJumpKeyInput` | Runtime/Scripts/Movements/PlayerController.cs:215-227 | a jump key event only records the edge in the jump latch; every other part of the controller is untouched |
| `Locomotion.HandleCrouchKeyInput` | Runtime/Scripts/Movements/PlayerController.cs:269-281 | a crouch key event only records the edge in the crouch latch |
| `Locomotion.HandleMoveInput` | Runtime/Scripts/Movements/PlayerController.cs:85 | the stored stick input never exceeds unit length, and an input of length at most 1 is stored unchanged |
| `Vectors.ClampToUnit` | Runtime/Scripts/Movements/PlayerController.cs:85 | the clamped stick input never exceeds unit length, and an input of length at most 1 is kept unchanged |
| `Vectors.ClampedInputBounded` | Runtime/Scripts/Movements/PlayerController.cs:85 | both branches of the clamp, the normalised over-long input and the kept short one, have length at most 1 |
| `Locomotion.ResetJumpKeys` | Runtime/Scripts/Movements/PlayerController.cs:232-237 | the end of a fixed tick drops both jump edges and the jump lock, keeps whether the key is held, and leaves the crouch latch, the state and the exit flags alone |
| `Locomotion.ResetCrouchKeys` | Runtime/Scripts/Movements/PlayerController.cs:283-287 | drops both crouch edges, keeps the held flag, leaves the jump latch and lock alone |
| `Locomotion.StartCoyoteTimer` | Runtime/Scripts/Movements/PlayerController.cs:204-208 | the coyote window opens with its full `coyoteTime` and nothing else changes |
| `Locomotion.SetupLerpToDefaultMoveSpeed` | Runtime/Scripts/Movements/PlayerController.cs:468-476 | the cap becomes `movementSpeed`, easing restarts from the current flat speed and the change timer runs from 0 |
| `Locomotion.SetMaxSpeed` | Runtime/Scripts/Movements/PlayerController.cs:48 | only the current speed cap changes |
| `Locomotion.MovementVelocity` | Runtime/Scripts/Movements/PlayerController.cs:447-453 | on a non-degenerate slope normal the movement velocity lies in the slope plane; with the stick at rest or a zero movement speed it is zero |
| `Locomotion.MovementVelocityScales` | Runtime/Scripts/Movements/PlayerController.cs:447-453 | the movement velocity is linear in the stick input: scaling the input by k scales the velocity by k |
| `Locomotion.LevelGroundMovement` | Runtime/Scripts/Movements/PlayerController.cs:447-453 | on level ground with horizontal unit camera axes, the movement velocity is the stick's y along forward plus its x along right, times `movementSpeed` |
| `Locomotion.AxisMovementLength` | Runtime/Scripts/Movements/PlayerController.cs:452 | along perpendicular unit axes the squared speed is `movementSpeed`² times the squared stick deflection |
| `Locomotion.MovementVelocityInputs` | Runtime/Scripts/Movements/PlayerController.cs:447-453 | the movement velocity depends only on the stick input, the camera axes, the slope normal and the speed setting |
| `Locomotion.CalculateVelocity` | Runtime/Scripts/Movements/PlayerController.cs:357-365 | the impulse added is the movement velocity scaled by the state's ratio; the body's velocity, drag and flags are untouched |
| `Locomotion.HandleGravity` | Runtime/Scripts/Movements/PlayerController.cs:460-466 | on the ground nothing is added; in the air exactly `gravityScale` downward is added to the impulse |
| `Locomotion.AdjustToGround` | Runtime/Scripts/Movements/PlayerController.cs:413-419 | the mover's ground-adjustment velocity is added only when grounded and in Grounded; otherwise velocity is unchanged |
| `Locomotion.HandleSpeedLimit` | Runtime/Scripts/Movements/PlayerController.cs:381-401 | states that are not speed-limited, and flat speeds within the cap, leave the velocity alone; otherwise the velocity is the eased limit of the flat part |
| `Locomotion.HandleSpeedLimitEases` | Runtime/Scripts/Movements/PlayerController.cs:389-400 | a limited tick on a unit slope normal keeps the component along the normal and gives the flat part exactly the allowed speed as its length |
| `Locomotion.HandleSpeedLimitLerps` | Runtime/Scripts/Movements/PlayerController.cs:395-400 | outside the snap zone, the flat speed after a limited tick is the `Mathf.Lerp` between the speed at the last change and the cap |
| `Locomotion.LimitedFlatLength` | Runtime/Scripts/Movements/PlayerController.cs:397-400 | whatever speed the flat part is rescaled to, the normal component is kept and the flat part has that length |
| `Locomotion.FlatVelocity` | Runtime/Scripts/Movements/PlayerController.cs:406-411 | the velocity without its component along the current slope normal; `FlatVelocityInPlane` states its meaning |
| `Locomotion.FlatVelocityInPlane` | Runtime/Scripts/Movements/PlayerController.cs:406-411 | on a unit slope normal the flat velocity lies in the slope plane, and adding back the normal component restores the velocity |
| `Locomotion.IsLimitedSpeed` | Runtime/Scripts/Movements/FPSStates.cs:10 | every state is speed-limited except Sliding and Climbing, which override the default (SlideMovement.cs:141, ClimbMovement.cs:93); `HandleSpeedLimit` leaves the others' velocity alone |
| `Locomotion.HandleDrag` | Runtime/Scripts/Movements/PlayerController.cs:367-379 | drag is 0 in the air, the slide drag when sliding on the ground, the ground drag otherwise |
| `Locomotion.DragVanishesOnlyInAir` | Runtime/Scripts/Movements/PlayerController.cs:367-379 | drag is 0 exactly when airborne, and never above the ground drag when the slide drag is not larger |
| `Locomotion.CalculateSlope` | Runtime/Scripts/Movements/PlayerController.cs:455-458 | the slope normal becomes the sensed one and nothing else changes |
| `Locomotion.AllowedSpeed` | Runtime/Scripts/Movements/PlayerController.cs:395-397 | the allowed flat speed lies between the speed at the last change and the cap, is the cap or at least 0.05 away from it, is the cap once the easing period is over, and whenever the `Mathf.Lerp` value at elapsed time over period is at least 0.05 from the cap it is exactly that value |
| `Locomotion.IsCrouching` | Runtime/Scripts/Movements/PlayerController.cs:289-292 | crouch intent is the crouch key pressed this tick or held |
| `Locomotion.IsCoyoteJumpAllowed` | Runtime/Scripts/Movements/PlayerController.cs:260 | a coyote jump needs the coyote countdown running, a fresh unlocked press, and the machine in Falling |
| `Locomotion.TickTimers` | Runtime/Scripts/Movements/PlayerController.cs:490-494 | a frame ticks the coyote countdown and the speed-change stopwatch by the frame time and nothing else |
| `GroundMovement.OnGroundEnter` | Runtime/Scripts/Movements/GroundMovement.cs:22-28 | landing switches to the extended cast range, clears both exit flags and restarts the easing towards `movementSpeed`; keys, lock and timers are kept |
| `GroundMovement.OnGroundExit` | Runtime/Scripts/Movements/GroundMovement.cs:30-34 | leaving the ground opens the coyote window with its full time and drops the extended cast range |
| `GroundMovement.LandThenLeave` | Runtime/Scripts/Movements/GroundMovement.cs:22-34 | landing then leaving leaves both exit flags clear, the coyote window open and the short cast range |
| `JumpMovement.OnJumpEnter` | Runtime/Scripts/Movements/JumpMovement.cs:29-37 | a locked jump does nothing; an unlocked one locks and adds exactly `jumpForce` upward to the impulse |
| `JumpMovement.OnJumpExit` | Runtime/Scripts/Movements/JumpMovement.cs:39-45 | leaving Jumping halves a positive vertical velocity, keeps a non-positive one, and clears the crouch-exit flag |
| `JumpMovement.IsEnteringJump` | Runtime/Scripts/Movements/JumpMovement.cs:47-53 | the jump guard: a fresh unlocked press on the ground or a coyote jump, and in both cases no crouch exit under way |
| `JumpMovement.EnteringJumpNeeds` | Runtime/Scripts/Movements/JumpMovement.cs:47-53 | a jump starts only on a fresh unlocked press outside a crouch exit, in the air only from Falling with the coyote window open; on the ground those conditions suffice |
| `JumpMovement.JumpOncePerLock` | Runtime/Scripts/Movements/JumpMovement.cs:29-37 | entering a jump twice equals entering once, and right after a jump no jump entry is possible |
| `JumpMovement.JumpExitDamps` | Runtime/Scripts/Movements/JumpMovement.cs:39-45 | leaving Jumping while rising leaves a vertical velocity that is still positive and strictly smaller; otherwise it is unchanged |
| `CrouchMovement.OnCrouchEnter` | Runtime/Scripts/Movements/CrouchMovement.cs:31-37 | crouching sets the crouch flag, pushes the body down by the fixed crouch impulse and restarts the easing towards `movementSpeed` |
| `CrouchMovement.OnCrouchExit` | Runtime/Scripts/Movements/CrouchMovement.cs:39-43 | standing up clears the crouch flag and raises the crouch-exit flag |
| `CrouchMovement.CrouchExitBlocksJump` | Runtime/Scripts/Movements/CrouchMovement.cs:39-43 | right after leaving a crouch no jump can start; leaving a jump clears that block again |
| `SlideMovement.SlidingBySquaredSpeed` | Runtime/Scripts/Movements/SlideMovement.cs:98-101 | a slide holds exactly when grounded, crouch pressed or held, and speed strictly greater than the slide minimum, stated through the squared speed |
| `SlideMovement.IsSliding` | Runtime/Scripts/Movements/SlideMovement.cs:98-101 | the slide guard: crouch pressed or held, grounded, and body speed strictly above `minimumSlideVelocity` |
| `SlideMovement.OnSlideEnter` | Runtime/Scripts/Movements/SlideMovement.cs:57-66 | a slide crouches, adds the boost along the movement direction plus the crouch push, and caps speed at the current flat speed |
| `SlideMovement.SlideBoostStrength` | Runtime/Scripts/Movements/SlideMovement.cs:59-60 | when the movement velocity is longer than 0.00001, the boost added on entering a slide has length `slideBoost` |
| `SlideMovement.OnSlideExit` | Runtime/Scripts/Movements/SlideMovement.cs:68-74 | leaving a slide stands up, raises the crouch-exit flag and reopens the coyote window |
| `SlideMovement.SlopeDirection` | Runtime/Scripts/Movements/SlideMovement.cs:89-90 | the downhill direction as the double cross product of the normal with `up`; `SlopeDirectionGoesDown` states its meaning |
| `SlideMovement.SlopeDirectionGoesDown` | Runtime/Scripts/Movements/SlideMovement.cs:89-90 | the slope direction lies in the slope plane and points downhill, strictly so on any slope that is not flat |
| `SlideMovement.SlideOnSlope` | Runtime/Scripts/Movements/SlideMovement.cs:81-96 | flat ground adds nothing; on a slope the impulse gains the slope direction scaled by the slide-on-slope factors and the slope angle |
| `SlideMovement.SlideOnSlopePushesDown` | Runtime/Scripts/Movements/SlideMovement.cs:81-96 | sliding on a slope never pushes upward, and the push stays in the slope plane |
| `ClimbMovement.WallCheck` | Runtime/Scripts/Movements/ClimbMovement.cs:39-43 | the wall reading replaces the stored wall flag and look angle and nothing else |
| `ClimbMovement.IsClimbingEnter` | Runtime/Scripts/Movements/ClimbMovement.cs:45-48 | climb entry needs a wall in front, a look angle below `maxWallLookAngle`, jump pressed or held, and no climb exit under way |
| `ClimbMovement.IsClimbingExit` | Runtime/Scripts/Movements/ClimbMovement.cs:50-53 | a climb ends when jump is released or the climb countdown is finished |
| `ClimbMovement.OnClimbEnter` | Runtime/Scripts/Movements/ClimbMovement.cs:57-63 | starting a climb reloads and runs the climb countdown with `climbTime` |
| `ClimbMovement.OnClimbUpdate` | Runtime/Scripts/Movements/ClimbMovement.cs:65-68 | a climbing frame only ticks the climb countdown |
| `ClimbMovement.OnClimbFixedUpdate` | Runtime/Scripts/Movements/ClimbMovement.cs:70-73 | a climbing tick sets the vertical velocity to the current speed cap and keeps the horizontal velocity |
| `ClimbMovement.OnClimbExit` | Runtime/Scripts/Movements/ClimbMovement.cs:75-78 | leaving Climbing only raises the climb-exit flag |
| `ClimbMovement.ClimbExitShutsClimbEntry` | Runtime/Scripts/Movements/ClimbMovement.cs:45-48 | after a climb exit, climb entry is impossible whatever the wall reading or key input |
| `ClimbMovement.ClimbFramesTickTimer` | Runtime/Scripts/Movements/ClimbMovement.cs:65-68 | a run of climbing frames is the climb countdown ticked over all frame times |
| `ClimbMovement.ClimbLastsClimbTime` | Runtime/Scripts/Movements/ClimbMovement.cs:50-63 | the climb exit guard's timer is not finished before `climbTime` seconds of frames, and finished once they add up to `climbTime` |
| `FpsStates.OnEnter` | Runtime/Scripts/Movements/FPSStates.cs:31-165 | entering a state keeps the state field and key latches; only Grounded clears the exit flags, only Jumping changes the lock, Falling and Rising do nothing |
| `FpsStates.OnExit` | Runtime/Scripts/Movements/FPSStates.cs:36-165 | leaving Climbing raises the climb-exit flag, leaving Crouching or Sliding the crouch-exit flag; Falling and Rising do nothing; no exit changes the lock or the impulse |
| `FpsStates.FixedUpdate` | Runtime/Scripts/Movements/FPSStates.cs:25-155 | a state's fixed update only touches the body's impulse, except Climbing, which also sets the vertical velocity to the speed cap |
| `FpsStates.Update` | Runtime/Scripts/Movements/FPSStates.cs:41-170 | a frame update does nothing in the five states declared there; only Climbing (`ClimbMovement.cs:105`) has one, which ticks the climb countdown |
| `FpsStates.FixedUpdateUsesOwnRatio` | Runtime/Scripts/Movements/FPSStates.cs:23-155 | each state's fixed update adds the movement velocity scaled by its own speed ratio, plus the slope push when sliding |
| `FpsStates.QuietStates` | Runtime/Scripts/Movements/FPSStates.cs:97-137 | Falling and Rising have no enter or exit effects, and outside Climbing frames never touch the climb countdown |
| `LocomotionMachine.GuardHolds` | Runtime/Scripts/Movements/PlayerController.cs:159-186 | the guard lambdas of the transition table, one case per distinct guard; `TableGroupedBySource` pairs each edge with its guard |
| `LocomotionMachine.TableGroupedBySource` | Runtime/Scripts/Movements/PlayerController.cs:159-186 | every declared transition is one of the edges the controller wires, with its own guard |
| `LocomotionMachine.FirstEnabled` | Runtime/Scripts/Movements/PlayerController.cs:159-188 | the machine stays exactly when no transition from the current state is enabled; otherwise it moves along an enabled one |
| `LocomotionMachine.FirstEnabledIsDeclared` | Runtime/Scripts/Movements/PlayerController.cs:159-186 | any state the machine moves to is a declared successor of the current one |
| `LocomotionMachine.ChangeState` | Runtime/Scripts/Movements/PlayerController.cs:191 | a state change lands in the target state, keeps the keys, and leaving Climbing raises the climb-exit flag unless the target is Grounded |
| `LocomotionMachine.MachineFixedUpdate` | Runtime/Scripts/Movements/PlayerController.cs:106 | a machine tick keeps the keys and either stays put or follows a declared transition |
| `LocomotionMachine.AfterMachine` | Runtime/Scripts/Movements/PlayerController.cs:107-116 | the rest of the fixed tick adds gravity only in the air, sets drag by groundedness and state, takes the sensed slope, and clears both latches' edges and the lock |
| `LocomotionMachine.FixedTick` | Runtime/Scripts/Movements/PlayerController.cs:104-117 | after a fixed tick no key edge and no lock remain, held flags survive, and any state change follows a declared transition |
| `LocomotionMachine.SenseBody` | Runtime/Scripts/Movements/PlayerController.cs:104-106 | a fixed tick starts from the body the physics step left: the sensed velocity and no queued impulse; nothing else changes |
| `LocomotionMachine.Step` | Runtime/Scripts/Movements/PlayerController.cs:85-117 | one event: a fixed tick, a frame, or one of the three input callbacks |
| `LocomotionMachine.Run` | Runtime/Scripts/Movements/PlayerController.cs:85-117 | a run applies the events in order |
| `LocomotionMachine.RunAppend` | Runtime/Scripts/Movements/PlayerController.cs:85-117 | running two event sequences one after the other is running their concatenation |
| `LocomotionMachine.FrameTick` | Runtime/Scripts/Movements/PlayerController.cs:90-102 | a frame ticks the timers, stores the wall reading and runs the state's frame update; state, keys, flags and body are untouched |
| `LocomotionProperties.TableShape` | Runtime/Scripts/Movements/PlayerController.cs:159-188 | the machine starts in Falling, has no self-loops, and Climbing is entered only from Jumping, Rising or Falling and left only to Falling |
| `LocomotionProperties.ClimbingEdges` | Runtime/Scripts/Movements/PlayerController.cs:183-186 | every actual tick into Climbing comes from an airborne state, and every tick out of Climbing goes to Falling |
| `LocomotionProperties.FirstEnabledPicks` | Runtime/Scripts/Movements/PlayerController.cs:159-186 | an enabled transition with no enabled transition before it is the one taken |
| `LocomotionProperties.GroundedGuardsExclusive` | Runtime/Scripts/Movements/PlayerController.cs:170-177 | the slide and crouch guards from Grounded never both hold, both need the crouch key, and at the minimum slide speed neither holds |
| `LocomotionProperties.QuietTick` | Runtime/Scripts/Movements/PlayerController.cs:104-106 | with no transition enabled, a machine tick is the state's own fixed update |
| `LocomotionProperties.NoJumpWithoutFreshPress` | Runtime/Scripts/Movements/PlayerController.cs:232-237 | after any fixed tick no jump can start until a new press arrives |
| `LocomotionProperties.GroundJump` | Runtime/Scripts/Movements/PlayerController.cs:165 | a fresh press on the ground enters Jumping with the movement impulse plus `jumpForce` upward, opens the coyote window and drops the extended cast range |
| `LocomotionProperties.GroundJumpMachineStep` | Runtime/Scripts/Movements/PlayerController.cs:165 | the machine part of a ground jump |
| `LocomotionProperties.CoyoteJump` | Runtime/Scripts/Movements/PlayerController.cs:166 | a fresh press while Falling with the coyote window open enters Jumping with the air-ratio movement impulse, the jump force and gravity |
| `LocomotionProperties.CoyoteMachineStep` | Runtime/Scripts/Movements/PlayerController.cs:166 | the machine part of a coyote jump |
| `LocomotionProperties.EnterJumping` | Runtime/Scripts/Movements/PlayerController.cs:239-247 | changing into Jumping without the lock locks and adds exactly the jump force |
| `LocomotionProperties.GroundSlide` | Runtime/Scripts/Movements/PlayerController.cs:170 | crouching on the ground at slide speed enters Sliding, crouched, capped at the flat speed, with slide drag and the coyote window open |
| `LocomotionProperties.GroundSlideMachineStep` | Runtime/Scripts/Movements/PlayerController.cs:170 | the machine part of entering a slide |
| `LocomotionProperties.Landing` | Runtime/Scripts/Movements/PlayerController.cs:159 | touching ground while Falling enters Grounded with both exit flags clear, the extended cast range and the easing restarted |
| `LocomotionProperties.LandingMachineStep` | Runtime/Scripts/Movements/PlayerController.cs:159 | the machine part of landing |
| `LocomotionProperties.AirborneTickKeepsClimbShut` | Runtime/Scripts/Movements/PlayerController.cs:183-186 | while airborne with the climb-exit flag raised and no ground sensed, a fixed tick stays airborne and keeps the flag |
| `LocomotionProperties.AirborneChoice` | Runtime/Scripts/Movements/PlayerController.cs:159-186 | without ground and with the climb-exit flag, every enabled transition from an airborne state leads to an airborne state |
| `LocomotionProperties.ClimbShutUntilGrounded` | Runtime/Scripts/Movements/ClimbMovement.cs:45-48 | over any run of events without ground contact, a player who left a climb stays airborne and cannot climb again |
| `LocomotionProperties.StepKeepsClimbShut` | Runtime/Scripts/Movements/ClimbMovement.cs:45-48 | one event of such a run keeps the player airborne with the climb-exit flag |
| `LocomotionProperties.FramesTickCoyote` | Runtime/Scripts/Movements/PlayerController.cs:490-494 | a run of frames ticks the coyote countdown over all frame times and changes no key, state, lock or crouch-exit flag |
| `LocomotionProperties.CoyoteWindowCloses` | Runtime/Scripts/Movements/PlayerController.cs:257-263 | once frames adding up to `coyoteTime` have passed since leaving the ground, no mid-air jump can start |
| `SpeedLimit.Clamp01` | Runtime/Scripts/Movements/PlayerController.cs:395 | the clamped parameter lies in [0, 1] and equals the input inside it |
| `SpeedLimit.Lerp` | Runtime/Scripts/Movements/PlayerController.cs:395 | the interpolated speed lies between both ends, hits them at the parameter ends, and its distance to the target shrinks linearly |
| `SpeedLimit.EaseParameter` | Runtime/Scripts/Movements/PlayerController.cs:395 | the easing parameter times the period (time to change speed times stick length plus 0.05) gives back the elapsed time |
| `SpeedLimit.EasedSpeed` | Runtime/Scripts/Movements/PlayerController.cs:395-397 | the eased speed lies between the speed at the change and the cap, snaps to the cap within 0.05, and otherwise is exactly the `Lerp` at elapsed time over period; with a positive time to change speed it reaches the cap once the period is over, with a negative one it stays at the starting speed |
| `SpeedLimit.EasedSpeedMidway` | Runtime/Scripts/Movements/PlayerController.cs:395-397 | half way through the easing period the speed is the midpoint between the old speed and the cap, not the cap |
| `SpeedLimit.EasingApproachesCap` | Runtime/Scripts/Movements/PlayerController.cs:395-397 | the later the tick, the closer the eased speed is to the cap |
| `SpeedLimit.LerpApproaches` | Runtime/Scripts/Movements/PlayerController.cs:395 | a later interpolation parameter lands no farther from the target |
| `SpeedLimit.LimitVelocity` | Runtime/Scripts/Movements/PlayerController.cs:389-400 | the velocity is unchanged when the state is not limited or the flat speed is within the cap |
| `SpeedLimit.LimitKeepsNormalComponent` | Runtime/Scripts/Movements/PlayerController.cs:389-400 | a limited velocity keeps its component along the slope normal and its flat direction, and its flat length is the allowed speed |
| `InputLatch.Record` | Runtime/Scripts/Movements/PlayerController.cs:215-227 | a press raises the pressed and held flags, a release raises released and drops held, and the opposite edge is kept |
| `InputLatch.ClearEdges` | Runtime/Scripts/Movements/PlayerController.cs:232-237 | clearing drops both edges and keeps held |
| `InputLatch.LatchLaws` | Runtime/Scripts/Movements/PlayerController.cs:215-237 | recording is idempotent, held follows the last event, a press then release keeps both edges, and clearing is idempotent |
| `InputLatch.RecordAllSeesEveryEdge` | Runtime/Scripts/Movements/PlayerController.cs:215-227 | every press or release between two fixed ticks is visible at the next tick, and held follows the last event |
| `Timers.IsFinished` | Runtime/Movements/PlayerMovements.cs:109 | a countdown is finished once no time is left; `ExpiresAfterTime` and `RunsWhileTimeLeft` state when that happens |
| `Timers.NewCountdown` | Runtime/Movements/PlayerMovements.cs:56 | a new countdown is loaded with its time, stopped and finished |
| `Timers.Start` | Runtime/Scripts/Movements/PlayerController.cs:206 | starting reloads the full time and runs |
| `Timers.ResetTo` | Runtime/Scripts/Movements/ClimbMovement.cs:59-62 | resetting to a new time reloads it as both initial and remaining time and keeps the running flag |
| `Timers.Tick` | Runtime/Scripts/Movements/PlayerController.cs:490-494 | a stopped countdown is unchanged; a running one loses the frame time and stops once the time runs out |
| `Timers.StoppedStaysStopped` | Runtime/Scripts/Movements/PlayerController.cs:490-494 | ticking a stopped countdown any number of times leaves it as it was |
| `Timers.RunsWhileTimeLeft` | Runtime/Scripts/Movements/PlayerController.cs:490-494 | while the frame times add up to less than the remaining time, the countdown runs with exactly that much less |
| `Timers.ExpiresAfterTime` | Runtime/Scripts/Movements/PlayerController.cs:490-494 | once the frame times reach the remaining time, the countdown is stopped and finished |
| `Timers.NewStopwatch` | Runtime/Movements/PlayerMovements.cs:38 | a new stopwatch reads 0 and is stopped |
| `Timers.StartStopwatch` | Runtime/Scripts/Movements/PlayerController.cs:468-476 | starting a stopwatch runs it from 0 |
| `Timers.ResetStopwatch` | Runtime/Movements/PlayerMovements.cs:160-161 | resetting reads 0 and keeps the running flag |
| `Timers.TickStopwatch` | Runtime/Scripts/Movements/PlayerController.cs:493 | a running stopwatch gains the frame time; a stopped one is unchanged |
| `Timers.StopwatchMeasures` | Runtime/Scripts/Movements/PlayerController.cs:493 | over a run of frames a running stopwatch gains their total time and a stopped one is unchanged |
| `LayerMasks.SetLayer` | Runtime/Movements/Sensors/RaycastSensor.cs:44 | adding a layer sets its bit and keeps every other bit |
| `LayerMasks.ClearLayer` | Runtime/Movements/Sensors/RaycastSensor.cs:45 | removing a layer clears its bit and keeps every other bit |
| `Vectors.Normalize` | Runtime/Scripts/Movements/PlayerController.cs:85 | a vector longer than 0.00001 is divided by its length; a shorter one becomes zero |
| `Vectors.NormalizeIsUnit` | Runtime/Scripts/Movements/PlayerController.cs:85 | normalising a vector longer than 0.00001 gives a unit vector |
| `Vectors.ProjectOnPlane` | Runtime/Scripts/Movements/PlayerController.cs:449-450 | against a non-degenerate normal the projection is orthogonal to it and differs from the input by a multiple of it; a degenerate normal leaves the input as is |
| `RaycastSensor.NewSensor` | Runtime/Movements/Sensors/RaycastSensor.cs:8-22 | a new sensor casts 1 unit forward on layers 0 to 7 only and holds no hit |
| `RaycastSensor.SetCastLength` | Runtime/Movements/Sensors/RaycastSensor.cs:41 | the length read back is the one set; mask, direction, origin and hit are kept |
| `RaycastSensor.CastLengthRoundTrip` | Runtime/Movements/Sensors/RaycastSensor.cs:41-47 | get after set returns the value, the last set wins, and setting what was read changes nothing |
| `RaycastSensor.GetCastLength` | Runtime/Movements/Sensors/RaycastSensor.cs:47 | the getter returns the stored cast length |
| `RaycastSensor.SetCastDirection` | Runtime/Movements/Sensors/RaycastSensor.cs:39 | only the cast direction changes |
| `RaycastSensor.SetLayerMask` | Runtime/Movements/Sensors/RaycastSensor.cs:43 | only the layer mask changes |
| `RaycastSensor.AddLayer` | Runtime/Movements/Sensors/RaycastSensor.cs:44 | the layer's bit is set, every other bit and field is kept |
| `RaycastSensor.RemoveLayer` | Runtime/Movements/Sensors/RaycastSensor.cs:45 | the layer's bit is cleared, every other bit and field is kept |
| `RaycastSensor.AddRemoveLaws` | Runtime/Movements/Sensors/RaycastSensor.cs:44-45 | adding twice is adding once, and removing after adding clears the bit and restores every other bit |
| `RaycastSensor.GetCastDirection` | Runtime/Movements/Sensors/RaycastSensor.cs:51-63 | the cast direction table over the body's axes; `OppositeDirections` states its symmetry |
| `RaycastSensor.OppositeDirections` | Runtime/Movements/Sensors/RaycastSensor.cs:51-63 | backward, left and down are the negations of forward, right and up in the body's frame |
| `RaycastSensor.Cast` | Runtime/Movements/Sensors/RaycastSensor.cs:24-30 | a cast replaces only the stored hit |
| `RaycastSensor.HasDetectedHit` | Runtime/Movements/Sensors/RaycastSensor.cs:32 | a hit is detected exactly when the last cast hit a collider |
| `RaycastSensor.GetDistance` | Runtime/Movements/Sensors/RaycastSensor.cs:33 | the distance is the hit's distance, or 0 without a hit |
| `RaycastSensor.GetNormal` | Runtime/Movements/Sensors/RaycastSensor.cs:34 | the normal is the hit's normal, or zero without a hit |
| `PlayerMover.ColliderDimensions` | Runtime/Movements/PlayerMover.cs:81-95 | the capsule height excludes the step height, the radius is half the thickness clamped to half the height, and the center is the scaled offset raised by half the height times the step ratio |
| `PlayerMover.SensorLength` | Runtime/Movements/PlayerMover.cs:107 | the unscaled cast length from the capsule's middle past the step, plus thickness and margin; `CastLengthOrdering` relates it to the ranges |
| `PlayerMover.BaseSensorRange` | Runtime/Movements/PlayerMover.cs:108 | the scaled sensor length with the safety factor; `CastLengthOrdering` states it is longer than the sensor length |
| `PlayerMover.GroundCastLength` | Runtime/Movements/PlayerMover.cs:53-55 | the ground cast, extended by the step height when the extended range is on; `CastLengthOrdering` states the extended cast is never shorter |
| `PlayerMover.StanceDistance` | Runtime/Movements/PlayerMover.cs:62-63 | the distance below the sensor origin the body aims to stand at; `GroundAdjustmentSpeed` closes the gap to it in one step |
| `PlayerMover.CastLengthOrdering` | Runtime/Movements/PlayerMover.cs:53-55 | the extended cast is never shorter than the normal one, and the base sensor range is longer than the sensor length |
| `PlayerMover.GroundAdjustmentSpeed` | Runtime/Movements/PlayerMover.cs:61-66 | the adjustment moves up exactly when the ground is closer than the stance distance, is zero exactly at it, and covers the gap in one fixed step |
| `PlayerMover.LayerMaskScan` | Runtime/Movements/PlayerMover.cs:116-124 | the mask after the first scan steps, as written or corrected; `LayerMaskScanBit` states each bit of it |
| `PlayerMover.LayerMaskScanBit` | Runtime/Movements/PlayerMover.cs:118-124 | after scanning the first layers, each scanned bit is set or cleared by its collision test and each unscanned bit is still set |
| `PlayerMover.MaskAfterScanBit` | Runtime/Movements/PlayerMover.cs:113-129 | after the full scan and the Ignore Raycast removal, each bit other than Ignore Raycast is decided by its collision test alone |
| `PlayerMover.SensorLayerMaskAsWritten` | Runtime/Movements/PlayerMover.cs:113-129 | the mask as the code builds it holds exactly the layers the object does not collide with, never Ignore Raycast |
| `PlayerMover.SensorLayerMask` | Runtime/Movements/PlayerMover.cs:113-129 | the intended mask holds exactly the layers the object collides with, never Ignore Raycast |
| `PlayerMover.MaskBits` | Runtime/Movements/PlayerMover.cs:118-127 | a mask with the scan's per-bit formula holds exactly the layers whose collision test differs from the cleared value |
| `PlayerMover.AsWrittenMaskSeesNothing` | Runtime/Movements/PlayerMover.cs:118-124 | with a collision matrix that ignores nothing, the mask as written is empty while the intended mask holds every layer but Ignore Raycast |
| `PlayerMover.RecalculateSensorLayerMask` | Runtime/Movements/PlayerMover.cs:113-131 | the loop as written computes the mask that keeps only ignored layers |
| `PlayerMover.RecalculateSensorLayerMaskCorrected` | Runtime/Movements/PlayerMover.cs:113-131 | the loop with the test negated computes the intended mask |
| `PlayerMover.ScanLayers` | Runtime/Movements/PlayerMover.cs:116-124 | the loop over the 32 layers computes the scan function |
| `PlayerMover.Setup` | Runtime/Movements/PlayerMover.cs:97-111 | after setup the sensor casts down with the collider-derived length and the intended mask, the extended range is on and nothing is grounded yet |
| `PlayerMover.CheckForGround` | Runtime/Movements/PlayerMover.cs:45-67 | the mask is rebuilt only when the object's layer changed; grounded exactly when the cast hits; no adjustment in the air; on the ground the adjustment is along `up` at the stance-correcting speed |
| `PlayerMover.SetVelocity` | Runtime/Movements/PlayerMover.cs:69 | the applied velocity is the requested one plus the current ground adjustment |
| `PlayerMover.AdjustmentDirection` | Runtime/Movements/PlayerMover.cs:58-69 | without a hit the applied velocity is the requested one; with a hit it differs by a multiple of `up` that is positive exactly when the ground is closer than the stance distance |
| `MomentumController.Init` | Runtime/Movements/PlayerController.cs:36-46 | a fresh controller is in Falling with zero momentum, an idle unlocked jump key and a stopped coyote countdown loaded with `coyoteTime` |
| `MomentumController.OnJumpEnter` | Runtime/Movements/PlayerController.cs:146-154 | a locked jump does nothing; an unlocked one locks and adds `jumpForce` to the vertical momentum only |
| `MomentumController.OnJumpExit` | Runtime/Movements/PlayerController.cs:156-160 | leaving Jumping with the body rising removes half the body's vertical speed from the momentum; otherwise nothing changes |
| `MomentumController.IsEnteringJump` | Runtime/Movements/PlayerController.cs:162-174 | the jump guard: a fresh unlocked press on the ground, or the same in Falling with the coyote countdown running; this version has no crouch guard |
| `MomentumController.JumpOncePerLock` | Runtime/Movements/PlayerController.cs:162-174 | a jump entry is idempotent and blocks a second entry; an entry needs an unlocked fresh press, and in the air Falling with the coyote window open |
| `MomentumController.OnGroundExit` | Runtime/Movements/PlayerController.cs:103-106 | leaving the ground only opens the coyote window with its full time |
| `MomentumController.OnEnter` | Runtime/Movements/FPSStates.cs:51-55 | only entering Jumping has an effect, and it touches only the lock and the momentum |
| `MomentumController.OnExit` | Runtime/Movements/FPSStates.cs:26-61 | leaving Grounded opens the coyote window, leaving Jumping damps the momentum, leaving Falling or Rising does nothing |
| `MomentumController.GuardHolds` | Runtime/Movements/PlayerController.cs:84-93 | the guards of this controller's table, which test the momentum rather than the body's velocity for leaving the ground; `FirstEnabledPicks` states how they decide a tick |
| `MomentumController.FirstEnabled` | Runtime/Movements/PlayerController.cs:84-95 | the machine stays exactly when no transition is enabled; otherwise it takes an enabled one with no enabled one before it |
| `MomentumController.FirstEnabledPicks` | Runtime/Movements/PlayerController.cs:84-93 | the first enabled transition in declaration order is the one taken |
| `MomentumController.MachineFixedUpdate` | Runtime/Movements/PlayerController.cs:56 | the machine keeps the keys, input and velocity, stays put without an enabled transition and lands in the chosen state otherwise |
| `MomentumController.VerticalMomentum` | Runtime/Movements/PlayerController.cs:246-255 | grounded momentum is 0 vertically; in the air it gains gravity times the gravity scale times the fixed step |
| `MomentumController.ToVector2` | Runtime/Movements/PlayerController.cs:190-194 | the implicit `Vector3` to `Vector2` conversion keeps x and y and drops z; `MomentumLosesZ` shows its effect on the momentum |
| `MomentumController.HandleMomentumAsWritten` | Runtime/Movements/PlayerController.cs:187-195 | the momentum update as the code writes it keeps x, applies gravity to y and zeroes z |
| `MomentumController.HandleMomentum` | Runtime/Movements/PlayerController.cs:187-195 | the intended momentum update keeps both horizontal components and applies gravity to y |
| `MomentumController.MomentumLosesZ` | Runtime/Movements/PlayerController.cs:190-194 | with momentum (0, 0, 1) the code's update loses the z component while the intended one keeps it |
| `MomentumController.MomentumVersionsAgree` | Runtime/Movements/PlayerController.cs:187-195 | whenever the momentum has no z component, both updates agree |
| `MomentumController.DragFromState` | Runtime/Movements/PlayerController.cs:210-227 | the movement velocity is kept in full on the ground and scaled by `airDragRatio` in the air |
| `MomentumController.GroundAdjustment` | Runtime/Movements/PlayerController.cs:229-237 | the controller's own ground adjustment is the mover's in Grounded and zero otherwise |
| `MomentumController.CalculateVelocity` | Runtime/Movements/PlayerController.cs:197-208 | only the requested velocity changes; taking away the dragged movement velocity and the momentum leaves the controller's ground adjustment plus the mover's |
| `MomentumController.GroundedVelocity` | Runtime/Movements/PlayerController.cs:197-208 | in Grounded the velocity is the full movement velocity plus momentum plus twice the mover's ground adjustment (once here, once in `PlayerMover.cs:69`) |
| `MomentumController.AirborneVelocity` | Runtime/Movements/PlayerController.cs:197-208 | in the air the velocity is the movement velocity times `airDragRatio` plus momentum plus the mover's adjustment once |
| `MomentumController.RestingVelocity` | Runtime/Movements/PlayerController.cs:197-208 | with the stick at rest only the momentum and the adjustments remain |
| `MomentumController.ResetJumpKeys` | Runtime/Movements/PlayerController.cs:139-144 | the end of a tick drops both jump edges and the lock and keeps held |
| `MomentumController.FixedTick` | Runtime/Movements/PlayerController.cs:54-63 | after a fixed tick the state is the machine's choice and no key edge or lock remains |
| `MomentumController.FrameTick` | Runtime/Movements/PlayerController.cs:257-260 | a frame only ticks the coyote countdown |
| `MomentumController.HandleMoveInput` | Runtime/Movements/PlayerController.cs:44 | only the stick input changes, the stored input never exceeds unit length, and an input of length at most 1 is stored as is |
| `MomentumController.Step` | Runtime/Movements/PlayerController.cs:44-63 | one event: a fixed tick, a frame, a jump callback or a move callback |
| `MomentumController.Run` | Runtime/Movements/PlayerController.cs:44-63 | a run applies the events in order |
| `MomentumController.RunAppend` | Runtime/Movements/PlayerController.cs:44-63 | running two event sequences one after the other is running their concatenation |
| `MomentumController.StepKeepsMomentumVertical` | Runtime/Movements/PlayerController.cs:146-160 | every event keeps the momentum vertical, since jumps and gravity only touch y |
| `MomentumController.RunKeepsMomentumVertical` | Runtime/Movements/PlayerController.cs:187-195 | every run of events from a vertical momentum keeps it vertical |
| `MomentumController.InitMomentumVertical` | Runtime/Movements/PlayerController.cs:25 | from the initial controller, every reachable momentum is vertical, so both momentum updates agree on every run |
| `MomentumController.JumpingFallsAtZero` | Runtime/Movements/PlayerController.cs:92 | Jumping with a vertical body velocity of exactly 0 goes to Falling |
| `MomentumController.LeavingGroundOpensCoyote` | Runtime/Movements/PlayerController.cs:85 | leaving the ground with no upward momentum goes to Falling with the coyote window open |
| `MomentumController.CoyoteJump` | Runtime/Movements/PlayerController.cs:91 | a fresh unlocked press while Falling in the coyote window enters Jumping and adds the jump force to the vertical momentum once |
| `LegacyMovements.Init` | Runtime/Movements/PlayerMovements.cs:45-57 | a fresh controller has a stopped cooldown loaded with `jumpCooldown`, a stopwatch at 0 and is not grounded |
| `LegacyMovements.HandleMovementInput` | Runtime/Movements/PlayerMovements.cs:98-102 | only the two stick axes change |
| `LegacyMovements.CooldownOver` | Runtime/Movements/PlayerMovements.cs:109-111 | the cooldown allows a jump once it has finished or if it never ran |
| `LegacyMovements.GroundedOrCoyote` | Runtime/Movements/PlayerMovements.cs:109-111 | grounded, or the stopwatch reads less than `coyoteTime` |
| `LegacyMovements.CanJump` | Runtime/Movements/PlayerMovements.cs:109-111 | a jump needs a press, ground or coyote time, and the cooldown over |
| `LegacyMovements.HandleJump` | Runtime/Movements/PlayerMovements.cs:107-127 | an allowed press zeroes vertical velocity, adds `jumpForce` upward and starts the cooldown; a release while rising halves vertical velocity; otherwise nothing changes |
| `LegacyMovements.CooldownSeparatesJumps` | Runtime/Movements/PlayerMovements.cs:109-119 | right after a jump a second press cannot jump, and a release never adds impulse or raises vertical velocity |
| `LegacyMovements.CheckGroundAsWritten` | Runtime/Movements/PlayerMovements.cs:152-162 | the code's ground check stores the hit and, on a hit, only resets the stopwatch without changing whether it runs |
| `LegacyMovements.CheckGround` | Runtime/Movements/PlayerMovements.cs:152-162 | the intended ground check restarts the stopwatch from 0 on every hit |
| `LegacyMovements.AirFactor` | Runtime/Movements/PlayerMovements.cs:133 | the movement force is kept on the ground and scaled by `airMultiplier` in the air |
| `LegacyMovements.MovePlayer` | Runtime/Movements/PlayerMovements.cs:129-135 | only the accumulated force changes, by the movement force |
| `LegacyMovements.MoveForce` | Runtime/Movements/PlayerMovements.cs:129-135 | the movement force along the normalised stick direction; `MoveForceLength` states its length |
| `LegacyMovements.MoveForceLength` | Runtime/Movements/PlayerMovements.cs:131-134 | no stick input gives no force; a non-degenerate direction gives a force of length speed × 30 × air factor |
| `LegacyMovements.HandleDrag` | Runtime/Movements/PlayerMovements.cs:137-140 | drag is the ground drag when grounded and 0 in the air, and nothing else changes |
| `LegacyMovements.LimitSpeed` | Runtime/Movements/PlayerMovements.cs:164-173 | vertical speed is always kept; a flat speed within the cap is unchanged; a faster one is rescaled to the cap in the same direction |
| `LegacyMovements.LimitSpeedReachesCap` | Runtime/Movements/PlayerMovements.cs:164-173 | a limited flat velocity has exactly the cap as its length |
| `LegacyMovements.FixedTick` | Runtime/Movements/PlayerMovements.cs:65-73 | a fixed tick stores the hit, adds the movement force, sets drag by the hit, caps the velocity the controller holds (callback writes included), keeps the queued impulse and leaves the cooldown alone |
| `LegacyMovements.PhysicsStep` | Runtime/Movements/PlayerMovements.cs:65-73 | after the fixed tick the engine replaces the velocity and empties the impulse and force queues; drag and the controller fields stay |
| `LegacyMovements.JumpReachesPhysicsStep` | Runtime/Movements/PlayerMovements.cs:113-119 | a jump press followed by a fixed tick still has zero vertical velocity, the `jumpForce` impulse queued and the cooldown started when the physics step comes |
| `LegacyMovements.Step` | Runtime/Movements/PlayerMovements.cs:51-73 | one event: a fixed tick, a physics step, a frame, a jump callback or a move callback |
| `LegacyMovements.Run` | Runtime/Movements/PlayerMovements.cs:51-73 | a run applies the events in order |
| `LegacyMovements.RunAppend` | Runtime/Movements/PlayerMovements.cs:51-73 | running two event sequences one after the other is running their concatenation |
| `LegacyMovements.FrameTick` | Runtime/Movements/PlayerMovements.cs:59-63 | a frame ticks the cooldown and the stopwatch and nothing else |
| `LegacyMovements.AsWrittenStopwatchNeverRuns` | Runtime/Movements/PlayerMovements.cs:157-161 | with the code's ground check, the grounded stopwatch stays at 0 and stopped on every run |
| `LegacyMovements.AsWrittenJumpsInMidAir` | Runtime/Movements/PlayerMovements.cs:109-111 | with the code's ground check, a press can jump exactly when the cooldown is over, however long the player has been airborne |
| `LegacyMovements.CorrectedStopwatchMeasuresAirTime` | Runtime/Movements/PlayerMovements.cs:157-161 | with the intended check, over a run without ground the stopwatch gains the total frame time |
| `LegacyMovements.CorrectedCoyoteWindowCloses` | Runtime/Movements/PlayerMovements.cs:109-111 | with the intended check, once `coyoteTime` has passed in the air no press can jump |
| `LegacyMovements.CorrectedCoyoteWindowOpen` | Runtime/Movements/PlayerMovements.cs:109-111 | with the intended check, within `coyoteTime` of the last ground contact a press jumps whenever the cooldown is over |

## Findings

| source | as written | input that shows it | evidently intended | confidence | as-written member | corrected member |
|---|---|---|---|---|---|---|
| Runtime/Movements/PlayerController.cs:187-195 | the momentum goes through a `Vector2` and back, which maps z to 0 | momentum (0, 0, 1) in the air: the z component becomes 0 | gravity changes only the vertical component, and the horizontal ones are kept | low: not executed; no reachable momentum has a z component yet (`InitMomentumVertical`) | `MomentumController.HandleMomentumAsWritten` | `MomentumController.HandleMomentum` |
| Runtime/Movements/PlayerMovements.cs:157-161 | a ground hit resets the grounded stopwatch but never starts it, so it always reads 0 | take off, wait longer than `coyoteTime` with the cooldown over, then press jump: the press still jumps | start the stopwatch on contact so that it measures time since the last ground contact | medium: not executed; rests on the stopwatch semantics stated above | `LegacyMovements.AsWrittenJumpsInMidAir` | `LegacyMovements.CorrectedCoyoteWindowCloses` |
| Runtime/Movements/PlayerMover.cs:118-124 | a layer's bit is cleared when the object does NOT ignore collisions with it | a collision matrix that ignores nothing: the mask is empty and the ground cast never hits | clear the bits of the layers whose collision is ignored | medium: not executed | `PlayerMover.SensorLayerMaskAsWritten` | `PlayerMover.SensorLayerMask` |

The other modules use the corrected definitions:

- `FixedTick` in `MomentumController` uses `HandleMomentum`.
- Runs of `LegacyMovements` take the ground check as a `Variant`, so both
  behaviours can be stated.
- `PlayerMover.Setup` and `PlayerMover.CheckForGround` use
  `SensorLayerMask`.

## Notes on the source

- **Which hooks.** The controller's `SetupStateMachine`
  (`Runtime/Scripts/Movements/PlayerController.cs:147-188`) builds the
  states of `Runtime/Scripts/Movements/FPSStates.cs`. Their hooks call the
  controller's own `OnGroundEnter`, `OnJumpEnter`, `OnCrouchEnter` and so
  on, and that `OnJumpEnter` uses the controller's `jumpForce` of 5. The
  movement components declare nested states with the same dispatch
  (`GroundMovement.cs:36-69`, `JumpMovement.cs:56-148`,
  `CrouchMovement.cs:45-77`, `SlideMovement.cs:106-140`,
  `ClimbMovement.cs:80-106`). Those call the components' hooks, whose jump
  force is 20 (`JumpMovement.cs:11`) and whose landing hook also clears the
  climb-exit flag. Sliding and Climbing exist only as such nested states.
  The model follows the component hooks throughout, so
  `Locomotion.DefaultConfig` takes 20. `jumpForce` is a configuration
  value, and no property depends on which of the two it is.
- **Lock clearing.** The jump lock is cleared at the end of every fixed
  tick (`Runtime/Scripts/Movements/PlayerController.cs:236`), not when the
  key is released. `NoJumpWithoutFreshPress` holds because the pressed
  edge is cleared at the same point.
- **Climb-exit flag.** Only landing (`OnGroundEnter`) clears it. Jumping
  or leaving a crouch does not. `ClimbShutUntilGrounded` states the
  consequence.
- **Coyote rule.** The newest controller allows a mid-air jump only from
  Falling while the coyote countdown runs
  (`Runtime/Scripts/Movements/PlayerController.cs:260`).
- **Initial speed cap.** It starts at 0 and is first set on landing or
  crouching.
- **Jumping to Falling.** The newest controller leaves Jumping for Falling
  when vertical velocity is `< 0`. The intermediate controller does so when
  it is `<= 0` (`JumpingFallsAtZero`).
- **Double ground adjustment.** The intermediate controller adds the
  ground adjustment to the velocity itself in Grounded
  (`Runtime/Movements/PlayerController.cs:207`). The mover's `SetVelocity`
  then adds it again (`Runtime/Movements/PlayerMover.cs:69`).
  `MomentumController.GroundedVelocity` states the sum, with both terms.
- **Slide state constructor.** `SlidingState` is constructed with the
  controller only (`Runtime/Scripts/Movements/PlayerController.cs:156`).
  The model's single controller record holds the slide fields the state
  uses.

## Left out

- Physics integration (forces becoming velocity, drag acting, collisions):
  the engine does it. The model records the impulses, forces, velocities
  and drag the code hands over.
- Raycasts, sphere casts and the collision matrix: their results are
  inputs. These are the `RaycastHit` outcome, the wall reading and the
  `ignoresCollision` function.
- The cast origin and its world-space transform: they are engine geometry
  and decide no branch.
- Floating point: `float` is modelled as `real`; rounding is not modelled.
- `Mathf` and `Vector3` functions: `magnitude` is the abstract `norm`
  above, and `Vector3.Angle` is a parameter `angle`.
- Timers' source: `CountdownTimer` and `StopwatchTimer` are not part of
  this model. Their behaviour is the one described above.
- The `StateMachine` class: it is not part of this model. Its order of
  hooks is the one described above.
- Camera look, input reader plumbing, debug drawing, gizmos and
  `OnValidate`: they are presentation and editor code.
- `Runtime/Movements/FPSState.cs` and `Runtime/Movements/RaycastSensor.cs`:
  thin wrappers of the modelled code.
- `RaycastSensor.GetCastDirection`: the body's axes are a parameter.
  Whether they are orthonormal is not checked.
- `MomentumController.MovementVelocity`: no contract of its own. It is
  the camera-relative stick direction scaled by `movementSpeed`. It enters
  `GroundedVelocity` and `AirborneVelocity` as a term, and
  `RestingVelocity` states that it vanishes with the stick at rest.
- Vector equality: Unity's `Vector3 ==` is approximate. It holds when the
  difference is shorter than about 1e-5. `SlideMovement.SlideOnSlope` tests
  the slope normal against `up` with it
  (`Runtime/Scripts/Movements/SlideMovement.cs:83`).
  The model uses exact equality, so a normal within that tolerance of `up`
  but not equal to it counts as a slope here.
- Vector extension methods: `WithY`, `RemoveDotVector`, `ApplyVelocity`
  and `ApplyVerticalVelocity` are not part of this model. The model reads
  them by their names: `WithY` replaces the y component, `RemoveDotVector`
  removes the component along a unit vector, `ApplyVelocity` sets the
  body's velocity and `ApplyVerticalVelocity` sets only its y component.
- The oldest controller's order of events: input callbacks run between
  fixed ticks and write the body's velocity directly; after each
  `FixedUpdate` the engine's physics step turns the queued impulses and
  forces into the next velocity. `LegacyMovements.PhysicsStep` models that
  step with the resulting velocity as an input, since the integration is
  the engine's.
- `SpeedLimit.EasingApproachesCap`: stated for a positive time to change
  speed only. With a negative one the easing parameter is never positive
  for a non-negative elapsed time, and `EasedSpeed` already states that
  the speed then stays at the starting speed.
- `Locomotion.ValidConfig`: a time to change speed of exactly 0 is
  excluded. The source then divides by zero, and the float result
  (infinity or NaN) has no counterpart in `real`.
- `Locomotion.AxisMovementLength`: the squared-speed statement needs
  perpendicular unit axes. `LevelGroundMovement` gives the velocity as that
  axis combination on level ground, but the model does not check that the
  camera's axes are perpendicular.
- Stick input as a `Vec3`: the source holds it in a `Vector2`. The model
  stores a `Vec3` for both controllers. A z component can therefore enter
  `norm(moveInput)` in the clamp and the easing parameter. The input
  reader never produces one.
- `LegacyMovements.MoveForce`: no contract of its own. `MovePlayer` and
  `MoveForceLength` state what it contributes.
- `SpeedLimit.LimitVelocity`: states only the unchanged cases itself.
  `LimitKeepsNormalComponent` states the limited case, under a unit slope
  normal.
