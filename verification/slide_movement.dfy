/** `SlideMovement`: the slide guard, the slide boost and the pull down a
    slope while sliding. */
module SlideMovement {
  import opened Vectors
  import opened Timers
  import opened Locomotion

  /** `IsSliding`: crouch intent on the ground at a speed strictly above the
      minimum slide speed. */
  predicate IsSliding(c: Controller, cfg: Config, isGrounded: bool, norm: Norm) {
    IsCrouching(c) && isGrounded && norm(c.body.velocity) > cfg.minimumSlideVelocity
  }

  /** With a true length, the slide guard is the square-root-free test on the
      body's velocity. */
  lemma SlidingBySquaredSpeed(c: Controller, cfg: Config, isGrounded: bool, norm: Norm)
    requires NormAt(norm, c.body.velocity)
    ensures IsSliding(c, cfg, isGrounded, norm) <==>
      IsCrouching(c) && isGrounded && LongerThan(c.body.velocity, cfg.minimumSlideVelocity)
  {
    LengthTests(norm, c.body.velocity, cfg.minimumSlideVelocity);
  }

  /** `OnSlideEnter`: a boost along the movement direction, the crouch and
      its downward push, and the current flat speed as the new cap. */
  function OnSlideEnter(c: Controller, cfg: Config, s: Sensing, norm: Norm): (r: Controller)
    ensures r.body.isCrouching
    ensures r.body.impulse == Add(Add(c.body.impulse, Scale(Normalize(MovementVelocity(c, cfg, s, norm), norm), cfg.slideBoost)),
                                  CrouchPush)
    ensures r.currentMaxSpeed == norm(FlatVelocity(c, c.body.velocity))
    ensures r.state == c.state && SameKeys(r, c) && r.jumpKeyIsLocked == c.jumpKeyIsLocked
    ensures r.isExitingClimb == c.isExitingClimb && r.isExitingCrouch == c.isExitingCrouch
    ensures r.body.velocity == c.body.velocity && r.changeStateTimer == c.changeStateTimer
  {
    var forward := Normalize(MovementVelocity(c, cfg, s, norm), norm);
    var impulse := Add(Add(c.body.impulse, Scale(forward, cfg.slideBoost)), CrouchPush);
    var c1 := c.(body := c.body.(isCrouching := true, impulse := impulse));
    SetMaxSpeed(c1, norm(FlatVelocity(c, c.body.velocity)))
  }

  /** The slide boost has exactly the configured strength whenever there is
      movement input to slide along. */
  lemma SlideBoostStrength(c: Controller, cfg: Config, s: Sensing, norm: Norm)
    requires NormAt(norm, MovementVelocity(c, cfg, s, norm))
    requires norm(MovementVelocity(c, cfg, s, norm)) > 0.00001
    ensures var boost := Sub(Sub(OnSlideEnter(c, cfg, s, norm).body.impulse, c.body.impulse), CrouchPush);
      Dot(boost, boost) == cfg.slideBoost * cfg.slideBoost
  {
    BoostAlong(c.body.impulse, OnSlideEnter(c, cfg, s, norm).body.impulse, MovementVelocity(c, cfg, s, norm), cfg.slideBoost, norm);
  }

  lemma BoostAlong(before: Vec3, after: Vec3, mv: Vec3, k: real, norm: Norm)
    requires NormAt(norm, mv) && norm(mv) > 0.00001
    requires after == Add(Add(before, Scale(Normalize(mv, norm), k)), CrouchPush)
    ensures var boost := Sub(Sub(after, before), CrouchPush);
      Dot(boost, boost) == k * k
  {
    var f := Normalize(mv, norm);
    NormalizeIsUnit(mv, norm);
    AddThenRemove(before, Scale(f, k), CrouchPush);
    ScaledUnitLength(f, k);
  }

  lemma AddThenRemove(a: Vec3, b: Vec3, p: Vec3)
    ensures Sub(Sub(Add(Add(a, b), p), a), p) == b
  {
  }

  /** `OnSlideExit`: the body stands up, the crouch exit guard is raised and
      the coyote window opens. */
  function OnSlideExit(c: Controller): (r: Controller)
    ensures !r.body.isCrouching && r.isExitingCrouch
    ensures r.coyoteTimer == Start(c.coyoteTimer)
    ensures r.state == c.state && SameKeys(r, c) && r.jumpKeyIsLocked == c.jumpKeyIsLocked
    ensures r.isExitingClimb == c.isExitingClimb && r.body.velocity == c.body.velocity
    ensures r.body.impulse == c.body.impulse
  {
    StartCoyoteTimer(c.(body := c.body.(isCrouching := false), isExitingCrouch := true))
  }

  /** The direction down a slope with normal `n`: `n x (n x up)`. */
  function SlopeDirection(n: Vec3): Vec3 {
    Cross(n, Cross(n, Up))
  }

  /** The slope direction lies in the slope plane, never points up, and
      leans the way the normal leans, scaled by the normal's height. */
  lemma SlopeDirectionGoesDown(n: Vec3)
    ensures Dot(SlopeDirection(n), n) == 0.0
    ensures SlopeDirection(n).y == -(n.x * n.x + n.z * n.z) <= 0.0
    ensures SlopeDirection(n).x == n.y * n.x && SlopeDirection(n).z == n.y * n.z
    ensures n.x != 0.0 || n.z != 0.0 ==> SlopeDirection(n).y < 0.0
  {
    CrossPerpendicular(n, Cross(n, Up));
    assert n.x * n.x >= 0.0 && n.z * n.z >= 0.0;
    assert n.x != 0.0 ==> n.x * n.x > 0.0;
    assert n.z != 0.0 ==> n.z * n.z > 0.0;
  }

  /** `SlideOnSlope`: on anything but flat ground, an impulse down the slope
      of `movementSpeed` times a twentieth of the slope angle. `angle` is
      `Vector3.Angle`. */
  function SlideOnSlope(c: Controller, cfg: Config, angle: (Vec3, Vec3) -> real): (r: Controller)
    ensures c.slopeNormal == Up ==> r == c
    ensures c.slopeNormal != Up ==>
      r.body.impulse == Add(c.body.impulse, Scale(SlopeDirection(c.slopeNormal), cfg.movementSpeed * (angle(Up, c.slopeNormal) / 20.0)))
    ensures r == c.(body := r.body) && r.body == c.body.(impulse := r.body.impulse)
  {
    if c.slopeNormal == Up then c
    else
      c.(body := c.body.(impulse := Add(c.body.impulse, Scale(SlopeDirection(c.slopeNormal), cfg.movementSpeed * (angle(Up, c.slopeNormal) / 20.0)))))
  }

  /** A non-negative multiple of the slope direction points down and lies
      in the slope plane. */
  lemma ScaledSlopeDirection(n: Vec3, k: real)
    requires k >= 0.0
    ensures Scale(SlopeDirection(n), k).y <= 0.0
    ensures Dot(Scale(SlopeDirection(n), k), n) == 0.0
  {
    SlopeDirectionGoesDown(n);
    DotScaleLeft(SlopeDirection(n), k, n);
    var d := SlopeDirection(n);
    assert -d.y >= 0.0;
    assert (-d.y) * k >= 0.0;
  }

  /** With a non-negative speed and angle, sliding on a slope never pushes
      the body up, and the push lies in the slope plane. */
  lemma SlideOnSlopePushesDown(c: Controller, cfg: Config, angle: (Vec3, Vec3) -> real)
    requires cfg.movementSpeed >= 0.0 && angle(Up, c.slopeNormal) >= 0.0
    ensures SlideOnSlope(c, cfg, angle).body.impulse.y <= c.body.impulse.y
    ensures Dot(Sub(SlideOnSlope(c, cfg, angle).body.impulse, c.body.impulse), c.slopeNormal) == 0.0
  {
    var n := c.slopeNormal;
    var r := SlideOnSlope(c, cfg, angle);
    if n != Up {
      var k := cfg.movementSpeed * (angle(Up, n) / 20.0);
      assert k >= 0.0;
      ScaledSlopeDirection(n, k);
      AddThenRemove(c.body.impulse, Scale(SlopeDirection(n), k), Zero);
      assert Sub(r.body.impulse, c.body.impulse) == Scale(SlopeDirection(n), k);
    } else {
      assert Sub(r.body.impulse, c.body.impulse) == Zero;
    }
  }
}
