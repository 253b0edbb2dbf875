/** `ClimbMovement`: wall detection results, the climb guards, and the
    climb timer that bounds a climb. */
module ClimbMovement {
  import opened Vectors
  import opened Timers
  import opened Locomotion

  /** `WallCheck`: store the sphere cast's verdict and the angle between the
      look direction and the wall. The cast itself is the engine's. */
  function WallCheck(c: Controller, w: WallReading): (r: Controller)
    ensures r.isWallInFront == w.isWallInFront && r.wallLookAngle == w.wallLookAngle
    ensures r.(isWallInFront := c.isWallInFront, wallLookAngle := c.wallLookAngle) == c
  {
    c.(isWallInFront := w.isWallInFront, wallLookAngle := w.wallLookAngle)
  }

  /** `IsClimbingEnter`: facing a wall closely enough, with jump pressed or
      held, and not just back from a climb. */
  predicate IsClimbingEnter(c: Controller, cfg: Config) {
    c.isWallInFront && c.wallLookAngle < cfg.maxWallLookAngle
    && (c.jumpKey.pressed || c.jumpKey.held) && !c.isExitingClimb
  }

  /** `IsClimbingExit`: jump released this tick or climb time used up. */
  predicate IsClimbingExit(c: Controller) {
    c.jumpKey.released || c.climbTimer.IsFinished()
  }

  /** `OnClimbEnter`: reload the climb timer with the climb time and run it. */
  function OnClimbEnter(c: Controller, cfg: Config): (r: Controller)
    ensures r.climbTimer.isRunning && r.climbTimer.time == cfg.climbTime && r.climbTimer.initialTime == cfg.climbTime
    ensures r.(climbTimer := c.climbTimer) == c
  {
    c.(climbTimer := Start(ResetTo(c.climbTimer, cfg.climbTime)))
  }

  /** `OnClimbUpdate`: the climb timer advances by the frame time. */
  function OnClimbUpdate(c: Controller, dt: real): (r: Controller)
    ensures r.climbTimer == Tick(c.climbTimer, dt) && r.(climbTimer := c.climbTimer) == c
  {
    c.(climbTimer := Tick(c.climbTimer, dt))
  }

  /** `OnClimbFixedUpdate`: climb at the current speed cap. */
  function OnClimbFixedUpdate(c: Controller): (r: Controller)
    ensures r.body.velocity == WithY(c.body.velocity, c.currentMaxSpeed)
    ensures r == c.(body := r.body) && r.body == c.body.(velocity := r.body.velocity)
  {
    c.(body := c.body.(velocity := WithY(c.body.velocity, c.currentMaxSpeed)))
  }

  /** `OnClimbExit`: raise the climb exit guard. */
  function OnClimbExit(c: Controller): (r: Controller)
    ensures r.isExitingClimb && r.(isExitingClimb := c.isExitingClimb) == c
  {
    c.(isExitingClimb := true)
  }

  /** After a climb ends the climb guard stays shut, whatever the wall and
      the keys do, until something lowers the exit flag. */
  lemma ClimbExitShutsClimbEntry(c: Controller, cfg: Config, w: WallReading, isPressed: bool)
    ensures !IsClimbingEnter(OnClimbExit(c), cfg)
    ensures !IsClimbingEnter(WallCheck(OnClimbExit(c), w), cfg)
    ensures !IsClimbingEnter(HandleJumpKeyInput(OnClimbExit(c), isPressed), cfg)
  {
  }

  /** A run of climb frames. */
  function ClimbFrames(c: Controller, dts: seq<real>): Controller
    decreases |dts|
  {
    if |dts| == 0 then c else ClimbFrames(OnClimbUpdate(c, dts[0]), dts[1..])
  }

  lemma {:induction false} ClimbFramesTickTimer(c: Controller, dts: seq<real>)
    ensures ClimbFrames(c, dts) == c.(climbTimer := TickAll(c.climbTimer, dts))
    decreases |dts|
  {
    if |dts| > 0 {
      ClimbFramesTickTimer(OnClimbUpdate(c, dts[0]), dts[1..]);
    }
  }

  /** A climb lasts the climb time: the timer guard stays shut while less
      than `climbTime` has passed since entering, and opens once it has. */
  lemma ClimbLastsClimbTime(c: Controller, cfg: Config, dts: seq<real>)
    requires cfg.climbTime > 0.0 && AllNonNegative(dts)
    ensures Sum(dts) < cfg.climbTime ==> !ClimbFrames(OnClimbEnter(c, cfg), dts).climbTimer.IsFinished()
    ensures Sum(dts) >= cfg.climbTime ==> ClimbFrames(OnClimbEnter(c, cfg), dts).climbTimer.IsFinished()
  {
    var e := OnClimbEnter(c, cfg);
    ClimbFramesTickTimer(e, dts);
    if Sum(dts) < cfg.climbTime {
      RunsWhileTimeLeft(e.climbTimer, dts);
    } else {
      ExpiresAfterTime(e.climbTimer, dts);
    }
  }
}
