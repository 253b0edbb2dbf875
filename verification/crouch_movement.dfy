/** `CrouchMovement`: entering and leaving a crouch. */
module CrouchMovement {
  import opened Vectors
  import opened Locomotion
  import JumpMovement

  /** `OnCrouchEnter`: the body crouches, is pushed down, and the speed
      easing restarts towards the default movement speed. */
  function OnCrouchEnter(c: Controller, cfg: Config, norm: Norm): (r: Controller)
    ensures r.body.isCrouching
    ensures r.body.impulse == Add(c.body.impulse, CrouchPush)
    ensures r.currentMaxSpeed == cfg.movementSpeed && r.changeStateTimer.isRunning && r.changeStateTimer.time == 0.0
    ensures r.speedWhenChanged == norm(FlatVelocity(c, c.body.velocity))
    ensures r.state == c.state && SameKeys(r, c) && r.jumpKeyIsLocked == c.jumpKeyIsLocked
    ensures r.isExitingClimb == c.isExitingClimb && r.isExitingCrouch == c.isExitingCrouch
    ensures r.body.velocity == c.body.velocity
  {
    var c1 := c.(body := c.body.(isCrouching := true, impulse := Add(c.body.impulse, CrouchPush)));
    SetupLerpToDefaultMoveSpeed(c1, cfg, norm)
  }

  /** `OnCrouchExit`: the body stands up and the crouch exit guard is raised. */
  function OnCrouchExit(c: Controller): (r: Controller)
    ensures !r.body.isCrouching && r.isExitingCrouch
    ensures r.state == c.state && SameKeys(r, c) && r.jumpKeyIsLocked == c.jumpKeyIsLocked
    ensures r.isExitingClimb == c.isExitingClimb && r.body.velocity == c.body.velocity
    ensures r.body.impulse == c.body.impulse
  {
    c.(body := c.body.(isCrouching := false), isExitingCrouch := true)
  }

  /** Standing up from a crouch blocks every jump until a jump ends or the
      body lands; ending a jump lifts the block again. */
  lemma CrouchExitBlocksJump(c: Controller, isGrounded: bool)
    ensures !JumpMovement.IsEnteringJump(OnCrouchExit(c), isGrounded)
    ensures !JumpMovement.OnJumpExit(OnCrouchExit(c)).isExitingCrouch
  {
  }
}
