/** The seven states' `IState` hooks: which movement component each state's
    `OnEnter`, `OnExit`, `FixedUpdate` and `Update` call. */
module FpsStates {
  import opened Vectors
  import opened Locomotion
  import GroundMovement
  import JumpMovement
  import CrouchMovement
  import SlideMovement
  import ClimbMovement

  /** `OnEnter` of the state being entered. */
  function OnEnter(to: State, c: Controller, cfg: Config, s: Sensing, norm: Norm): (r: Controller)
    ensures r.state == c.state && SameKeys(r, c)
    ensures to != Grounded ==> r.isExitingClimb == c.isExitingClimb
    ensures to == Grounded ==> !r.isExitingClimb && !r.isExitingCrouch
    ensures to != Jumping ==> r.jumpKeyIsLocked == c.jumpKeyIsLocked
    ensures to == Falling || to == Rising ==> r == c
  {
    match to
    case Grounded => GroundMovement.OnGroundEnter(c, cfg, norm)
    case Jumping => JumpMovement.OnJumpEnter(c, cfg)
    case Crouching => CrouchMovement.OnCrouchEnter(c, cfg, norm)
    case Sliding => SlideMovement.OnSlideEnter(c, cfg, s, norm)
    case Climbing => ClimbMovement.OnClimbEnter(c, cfg)
    case Falling => c
    case Rising => c
  }

  /** `OnExit` of the state being left. */
  function OnExit(from: State, c: Controller): (r: Controller)
    ensures r.state == c.state && SameKeys(r, c) && r.jumpKeyIsLocked == c.jumpKeyIsLocked
    ensures r.body.impulse == c.body.impulse
    ensures from != Climbing ==> r.isExitingClimb == c.isExitingClimb
    ensures from == Climbing ==> r.isExitingClimb
    ensures from == Crouching || from == Sliding ==> r.isExitingCrouch
    ensures from == Falling || from == Rising ==> r == c
  {
    match from
    case Grounded => GroundMovement.OnGroundExit(c)
    case Jumping => JumpMovement.OnJumpExit(c)
    case Crouching => CrouchMovement.OnCrouchExit(c)
    case Sliding => SlideMovement.OnSlideExit(c)
    case Climbing => ClimbMovement.OnClimbExit(c)
    case Falling => c
    case Rising => c
  }

  /** The current state's `FixedUpdate`: the movement impulse at the state's
      own speed ratio, then the slide's slope push or the climb's vertical
      speed. Only the body changes. */
  function FixedUpdate(c: Controller, cfg: Config, s: Sensing, norm: Norm, angle: (Vec3, Vec3) -> real): (r: Controller)
    ensures r == c.(body := r.body)
    ensures r.body.drag == c.body.drag && r.body.isCrouching == c.body.isCrouching
    ensures r.body.useExtendedCastLength == c.body.useExtendedCastLength
    ensures c.state != Climbing ==> r.body.velocity == c.body.velocity
    ensures c.state == Climbing ==> r.body.velocity == WithY(c.body.velocity, c.currentMaxSpeed)
  {
    var moved := CalculateVelocity(c, cfg, s, norm, SpeedRatio(c.state));
    match c.state
    case Sliding => SlideMovement.SlideOnSlope(moved, cfg, angle)
    case Climbing => ClimbMovement.OnClimbFixedUpdate(moved)
    case _ => moved
  }

  /** The current state's `Update`: only Climbing has one, which ticks the
      climb timer. */
  function Update(c: Controller, dt: real): (r: Controller)
    ensures c.state == Climbing ==> r == ClimbMovement.OnClimbUpdate(c, dt)
    ensures c.state != Climbing ==> r == c
  {
    if c.state == Climbing then ClimbMovement.OnClimbUpdate(c, dt) else c
  }

  /** Every state's fixed update moves the body at exactly that state's
      speed ratio: the impulse it adds is the movement velocity times the
      ratio, plus the slope push when sliding; the climb only overwrites the
      vertical speed. */
  lemma FixedUpdateUsesOwnRatio(c: Controller, cfg: Config, s: Sensing, norm: Norm, angle: (Vec3, Vec3) -> real)
    ensures var r := FixedUpdate(c, cfg, s, norm, angle);
      var moved := CalculateVelocity(c, cfg, s, norm, SpeedRatio(c.state));
      && (c.state != Sliding ==> r.body.impulse == moved.body.impulse)
      && (c.state == Sliding ==> r == SlideMovement.SlideOnSlope(moved, cfg, angle))
      && Sub(moved.body.impulse, c.body.impulse) == Scale(MovementVelocity(c, cfg, s, norm), SpeedRatio(c.state))
  {
  }

  /** Falling and Rising have no hooks, and the climb timer moves only in
      Climbing. */
  lemma QuietStates(c: Controller, cfg: Config, s: Sensing, norm: Norm, dt: real)
    ensures OnEnter(Falling, c, cfg, s, norm) == c && OnExit(Falling, c) == c
    ensures OnEnter(Rising, c, cfg, s, norm) == c && OnExit(Rising, c) == c
    ensures c.state != Climbing ==> Update(c, dt).climbTimer == c.climbTimer
  {
  }
}
