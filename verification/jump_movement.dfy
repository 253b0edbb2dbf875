/** `JumpMovement`: the jump impulse, the early release, and the jump entry
    guard with its coyote-time branch. */
module JumpMovement {
  import opened Vectors
  import opened Locomotion

  /** `OnJumpEnter`: unless the jump key is locked, lock it and queue one
      upward impulse of `jumpForce`. */
  function OnJumpEnter(c: Controller, cfg: Config): (r: Controller)
    ensures c.jumpKeyIsLocked ==> r == c
    ensures !c.jumpKeyIsLocked ==> r.jumpKeyIsLocked && r.body.impulse == Add(c.body.impulse, Scale(Up, cfg.jumpForce))
    ensures r.state == c.state && SameKeys(r, c)
    ensures r.isExitingClimb == c.isExitingClimb && r.isExitingCrouch == c.isExitingCrouch
    ensures r.body.velocity == c.body.velocity
  {
    if c.jumpKeyIsLocked then c
    else c.(jumpKeyIsLocked := true, body := c.body.(impulse := Add(c.body.impulse, Scale(Up, cfg.jumpForce))))
  }

  /** `OnJumpExit`: a body still moving up loses half of its vertical speed
      at once; the crouch exit guard is lifted. */
  function OnJumpExit(c: Controller): (r: Controller)
    ensures c.body.velocity.y > 0.0 ==> r.body.velocity == WithY(c.body.velocity, c.body.velocity.y * 0.5)
    ensures c.body.velocity.y <= 0.0 ==> r.body.velocity == c.body.velocity
    ensures !r.isExitingCrouch
    ensures r.state == c.state && SameKeys(r, c) && r.jumpKeyIsLocked == c.jumpKeyIsLocked
    ensures r.isExitingClimb == c.isExitingClimb && r.body.impulse == c.body.impulse
  {
    var v := c.body.velocity;
    var c1 := if v.y > 0.0 then c.(body := c.body.(velocity := WithY(v, v.y * 0.5))) else c;
    c1.(isExitingCrouch := false)
  }

  /** `IsEnteringJump`: a fresh unlocked press on the ground, or a coyote
      jump, unless the body is just leaving a crouch. */
  predicate IsEnteringJump(c: Controller, isGrounded: bool) {
    ((c.jumpKey.pressed && !c.jumpKeyIsLocked && isGrounded) || IsCoyoteJumpAllowed(c)) && !c.isExitingCrouch
  }

  /** The jump guard needs a fresh press, no lock and no crouch exit; off
      the ground it fires only from Falling with the coyote timer running. */
  lemma EnteringJumpNeeds(c: Controller, isGrounded: bool)
    ensures IsEnteringJump(c, isGrounded) ==> c.jumpKey.pressed && !c.jumpKeyIsLocked && !c.isExitingCrouch
    ensures IsEnteringJump(c, isGrounded) && !isGrounded ==> c.state == Falling && c.coyoteTimer.isRunning
    ensures c.jumpKey.pressed && !c.jumpKeyIsLocked && !c.isExitingCrouch && isGrounded ==> IsEnteringJump(c, isGrounded)
  {
  }

  /** The lock makes the jump impulse happen at most once: entering twice
      is entering once, and right after entering the guard is closed. */
  lemma JumpOncePerLock(c: Controller, cfg: Config, isGrounded: bool)
    ensures OnJumpEnter(OnJumpEnter(c, cfg), cfg) == OnJumpEnter(c, cfg)
    ensures !IsEnteringJump(OnJumpEnter(c, cfg), isGrounded)
  {
  }

  /** Cutting a jump short never speeds the body up or turns it around. */
  lemma JumpExitDamps(c: Controller)
    ensures var y := OnJumpExit(c).body.velocity.y;
      (c.body.velocity.y > 0.0 ==> 0.0 < y < c.body.velocity.y) && (c.body.velocity.y <= 0.0 ==> y == c.body.velocity.y)
  {
  }
}
