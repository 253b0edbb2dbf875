/** The eased speed limit of the newest controller (`HandleSpeedLimit` with
    `SetupLerpToDefaultMoveSpeed`): when the flat speed exceeds the current
    cap, the flat speed is pulled towards the cap along a `Mathf.Lerp` whose
    parameter grows with the time since the cap last changed, and snapped to
    the cap once within 0.05. The component along the slope normal is kept. */
module SpeedLimit {
  import opened Vectors

  /** Distance to the cap below which the eased speed snaps to the cap. */
  const SnapDistance: real := 0.05

  /** Added to the input magnitude so that easing also ends without input. */
  const InputBias: real := 0.05

  function Abs(x: real): real {
    if x < 0.0 then -x else x
  }

  function Min(a: real, b: real): real {
    if a <= b then a else b
  }

  function Max(a: real, b: real): real {
    if a <= b then b else a
  }

  /** `Mathf.Clamp01`. */
  function Clamp01(t: real): (r: real)
    ensures 0.0 <= r <= 1.0
    ensures 0.0 <= t <= 1.0 ==> r == t
    ensures t < 0.0 ==> r == 0.0
    ensures t > 1.0 ==> r == 1.0
  {
    if t < 0.0 then 0.0 else if t > 1.0 then 1.0 else t
  }

  /** `Mathf.Lerp(a, b, t)`: the parameter is clamped to [0, 1], so the result
      lies between the two ends and reaches `b` exactly when `t >= 1`. */
  function Lerp(a: real, b: real, t: real): (r: real)
    ensures Min(a, b) <= r <= Max(a, b)
    ensures t <= 0.0 ==> r == a
    ensures t >= 1.0 ==> r == b
    ensures Abs(r - b) == Abs(a - b) * (1.0 - Clamp01(t))
  {
    var c := Clamp01(t);
    ScaleBetween(b - a, c);
    assert (a + (b - a) * c) - b == (a - b) * (1.0 - c);
    NonNegativeProduct(1.0 - c, Abs(a - b));
    AbsProduct(a - b, 1.0 - c);
    a + (b - a) * c
  }

  lemma ScaleBetween(d: real, c: real)
    requires 0.0 <= c <= 1.0
    ensures d >= 0.0 ==> 0.0 <= d * c <= d
    ensures d < 0.0 ==> d <= d * c <= 0.0
  {
    if d >= 0.0 {
      NonNegativeProduct(d, c);
      NonNegativeProduct(d, 1.0 - c);
    } else {
      NonNegativeProduct(-d, c);
      NonNegativeProduct(-d, 1.0 - c);
    }
  }

  lemma NonNegativeProduct(a: real, b: real)
    requires a >= 0.0 && b >= 0.0
    ensures a * b >= 0.0
  {
  }

  lemma AbsProduct(a: real, c: real)
    requires c >= 0.0
    ensures Abs(a * c) == Abs(a) * c
  {
    if a < 0.0 {
      NonNegativeProduct(-a, c);
    } else {
      NonNegativeProduct(a, c);
    }
  }

  /** The easing parameter: elapsed time over the time to change speed,
      scaled by the stick deflection plus a small bias. The time to change
      speed may be negative (nothing in the source bounds it); only zero,
      a division by zero, is excluded. */
  function EaseParameter(elapsed: real, timeToChange: real, inputMagnitude: real): (t: real)
    requires timeToChange != 0.0 && inputMagnitude >= 0.0
    ensures t * (timeToChange * (inputMagnitude + InputBias)) == elapsed
  {
    PeriodSign(timeToChange, inputMagnitude + InputBias);
    elapsed / (timeToChange * (inputMagnitude + InputBias))
  }

  /** The flat speed allowed `elapsed` seconds after the cap last changed.
      With a positive time to change speed it reaches the cap after one
      period; with a negative one the parameter never leaves 0 for a
      non-negative elapsed time, so the speed stays at the baseline. */
  function EasedSpeed(speedWhenChanged: real, cap: real, elapsed: real, timeToChange: real, inputMagnitude: real): (s: real)
    requires timeToChange != 0.0 && inputMagnitude >= 0.0
    ensures Min(speedWhenChanged, cap) <= s <= Max(speedWhenChanged, cap)
    ensures s == cap || Abs(s - cap) >= SnapDistance
    ensures timeToChange > 0.0 && elapsed >= timeToChange * (inputMagnitude + InputBias) ==> s == cap
    ensures timeToChange > 0.0 && elapsed <= 0.0 && Abs(speedWhenChanged - cap) >= SnapDistance ==> s == speedWhenChanged
    ensures timeToChange < 0.0 && elapsed >= 0.0 && Abs(speedWhenChanged - cap) >= SnapDistance ==> s == speedWhenChanged
    ensures Abs(speedWhenChanged - cap) < SnapDistance ==> s == cap
    ensures s == cap || s == Lerp(speedWhenChanged, cap, EaseParameter(elapsed, timeToChange, inputMagnitude))
    ensures var l := Lerp(speedWhenChanged, cap, EaseParameter(elapsed, timeToChange, inputMagnitude));
      Abs(l - cap) >= SnapDistance ==> s == l
  {
    var period := timeToChange * (inputMagnitude + InputBias);
    PeriodSign(timeToChange, inputMagnitude + InputBias);
    var t := EaseParameter(elapsed, timeToChange, inputMagnitude);
    EaseParameterEnds(elapsed, period);
    var current := Lerp(speedWhenChanged, cap, t);
    assert Abs(current - cap) <= Abs(speedWhenChanged - cap) by {
      NonNegativeProduct(Abs(speedWhenChanged - cap), Clamp01(t));
    }
    if Abs(current - cap) < SnapDistance then cap else current
  }

  /** Half way through a one-second period (stick at 0.95) the speed from 0
      towards a cap of 10 is exactly the midpoint, not the cap. */
  lemma EasedSpeedMidway()
    ensures EasedSpeed(0.0, 10.0, 0.5, 1.0, 0.95) == 5.0
  {
    assert EaseParameter(0.5, 1.0, 0.95) == 0.5;
    assert Lerp(0.0, 10.0, 0.5) == 5.0;
  }

  /** The longer the time since the cap changed, the closer the allowed
      speed is to the cap: easing never moves away from the cap. */
  lemma {:induction false} EasingApproachesCap(speedWhenChanged: real, cap: real, e1: real, e2: real,
                                               timeToChange: real, inputMagnitude: real)
    requires timeToChange > 0.0 && inputMagnitude >= 0.0 && e1 <= e2
    ensures Abs(EasedSpeed(speedWhenChanged, cap, e2, timeToChange, inputMagnitude) - cap)
         <= Abs(EasedSpeed(speedWhenChanged, cap, e1, timeToChange, inputMagnitude) - cap)
  {
    var period := timeToChange * (inputMagnitude + InputBias);
    PeriodSign(timeToChange, inputMagnitude + InputBias);
    var t1 := EaseParameter(e1, timeToChange, inputMagnitude);
    var t2 := EaseParameter(e2, timeToChange, inputMagnitude);
    DivideMonotone(e1, e2, period);
    assert t1 <= t2;
    LerpApproaches(speedWhenChanged, cap, t1, t2);
  }

  /** A later interpolation parameter lands no farther from the target. */
  lemma LerpApproaches(a: real, b: real, t1: real, t2: real)
    requires t1 <= t2
    ensures Abs(Lerp(a, b, t2) - b) <= Abs(Lerp(a, b, t1) - b)
  {
    assert Clamp01(t1) <= Clamp01(t2);
    NonNegativeProduct(Abs(a - b), Clamp01(t2) - Clamp01(t1));
  }

  lemma EaseParameterEnds(elapsed: real, period: real)
    requires period != 0.0
    ensures period > 0.0 && elapsed >= period ==> elapsed / period >= 1.0
    ensures period > 0.0 && elapsed <= 0.0 ==> elapsed / period <= 0.0
    ensures period < 0.0 && elapsed >= 0.0 ==> elapsed / period <= 0.0
  {
    if period > 0.0 && elapsed >= period {
      DivideMonotone(period, elapsed, period);
    }
    if period > 0.0 && elapsed <= 0.0 {
      DivideMonotone(elapsed, 0.0, period);
    }
    if period < 0.0 && elapsed >= 0.0 {
      DivideMonotone(-elapsed, 0.0, -period);
      assert elapsed / period == -elapsed / -period;
    }
  }

  /** The period has the sign of the time to change speed. */
  lemma PeriodSign(timeToChange: real, scale: real)
    requires timeToChange != 0.0 && scale > 0.0
    ensures timeToChange > 0.0 ==> timeToChange * scale > 0.0
    ensures timeToChange < 0.0 ==> timeToChange * scale < 0.0
  {
    if timeToChange > 0.0 {
      MulPositive(timeToChange, scale);
    } else {
      MulPositive(-timeToChange, scale);
    }
  }

  lemma SquareOfQuotient(s: real, l: real)
    requires l != 0.0
    ensures (s / l) * (s / l) * (l * l) == s * s
  {
    assert (s / l) * l == s;
  }

  lemma DivideMonotone(a: real, b: real, p: real)
    requires a <= b && p > 0.0
    ensures a / p <= b / p
  {
    NonNegativeProduct(b - a, 1.0 / p);
    assert b / p - a / p == (b - a) * (1.0 / p);
  }

  /** The velocity after the speed limit: unchanged unless the state is
      speed-limited and the velocity's component in the slope plane is
      longer than the cap; then that component is rescaled to `speed` and the
      component along the slope normal is kept. */
  function LimitVelocity(velocity: Vec3, slopeNormal: Vec3, isLimited: bool, cap: real, speed: real, norm: Norm): (r: Vec3)
    ensures !isLimited ==> r == velocity
    ensures norm(RemoveDot(velocity, slopeNormal)) <= cap ==> r == velocity
  {
    var flat := RemoveDot(velocity, slopeNormal);
    if !isLimited || norm(flat) <= cap then velocity
    else
      var up := Normalize(slopeNormal, norm);
      Add(Scale(Normalize(flat, norm), speed), Scale(up, Dot(velocity, up)))
  }

  /** On a unit slope normal, a velocity that gets limited keeps its
      component along the normal exactly, and its component in the slope
      plane keeps its direction and has length `speed`. */
  lemma LimitKeepsNormalComponent(velocity: Vec3, slopeNormal: Vec3, cap: real, speed: real, norm: Norm)
    requires IsUnit(slopeNormal) && NormAt(norm, slopeNormal)
    requires NormAt(norm, RemoveDot(velocity, slopeNormal))
    requires norm(RemoveDot(velocity, slopeNormal)) > cap
    requires norm(RemoveDot(velocity, slopeNormal)) > 0.00001
    ensures var r := LimitVelocity(velocity, slopeNormal, true, cap, speed, norm);
      && Dot(r, slopeNormal) == Dot(velocity, slopeNormal)
      && RemoveDot(r, slopeNormal) == Scale(RemoveDot(velocity, slopeNormal), speed / norm(RemoveDot(velocity, slopeNormal)))
      && Dot(RemoveDot(r, slopeNormal), RemoveDot(r, slopeNormal)) == speed * speed
  {
    var n := slopeNormal;
    var flat := RemoveDot(velocity, n);
    var l := norm(flat);
    NormalizeUnit(n, norm);
    RemoveDotOrthogonal(velocity, n);
    var f := Scale(flat, speed / l);
    assert Scale(Normalize(flat, norm), speed) == f;
    DotScaleLeft(flat, speed / l, n);
    SplitAlongNormal(f, n, Dot(velocity, n));
    DotScale(flat, speed / l);
    SquareOfQuotient(speed, l);
  }
}
