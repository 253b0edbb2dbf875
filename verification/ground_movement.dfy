/** `GroundMovement`: the bookkeeping of landing and leaving the ground. */
module GroundMovement {
  import opened Vectors
  import opened Timers
  import opened Locomotion

  /** `OnGroundEnter`: landing switches the ground sensor to its extended
      range, lifts both exit guards and restarts the speed easing towards
      the default movement speed. */
  function OnGroundEnter(c: Controller, cfg: Config, norm: Norm): (r: Controller)
    ensures r.body.useExtendedCastLength && !r.isExitingClimb && !r.isExitingCrouch
    ensures r.currentMaxSpeed == cfg.movementSpeed
    ensures r.speedWhenChanged == norm(FlatVelocity(c, c.body.velocity))
    ensures r.changeStateTimer.isRunning && r.changeStateTimer.time == 0.0
    ensures r.state == c.state && SameKeys(r, c) && r.jumpKeyIsLocked == c.jumpKeyIsLocked
    ensures r.coyoteTimer == c.coyoteTimer && r.climbTimer == c.climbTimer
    ensures r.body.velocity == c.body.velocity && r.body.impulse == c.body.impulse
  {
    var c1 := c.(body := c.body.(useExtendedCastLength := true), isExitingClimb := false, isExitingCrouch := false);
    SetupLerpToDefaultMoveSpeed(c1, cfg, norm)
  }

  /** `OnGroundExit`: leaving the ground opens the coyote window and
      shortens the ground sensor to its base range. */
  function OnGroundExit(c: Controller): (r: Controller)
    ensures r.coyoteTimer.isRunning && r.coyoteTimer.time == c.coyoteTimer.initialTime
    ensures r.coyoteTimer.initialTime == c.coyoteTimer.initialTime
    ensures !r.body.useExtendedCastLength
    ensures r.state == c.state && SameKeys(r, c) && r.jumpKeyIsLocked == c.jumpKeyIsLocked
    ensures r.isExitingClimb == c.isExitingClimb && r.isExitingCrouch == c.isExitingCrouch
    ensures r.body.velocity == c.body.velocity && r.body.impulse == c.body.impulse
  {
    var c1 := StartCoyoteTimer(c);
    c1.(body := c1.body.(useExtendedCastLength := false))
  }

  /** Landing and leaving again restores the sensor range to the base
      length, and the coyote window then lasts the full coyote time however
      long the body stood on the ground. */
  lemma LandThenLeave(c: Controller, cfg: Config, norm: Norm)
    ensures var r := OnGroundExit(OnGroundEnter(c, cfg, norm));
      && !r.body.useExtendedCastLength && !r.isExitingClimb && !r.isExitingCrouch
      && r.coyoteTimer == Start(c.coyoteTimer)
  {
  }
}
