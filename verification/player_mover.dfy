/** The capsule body with its downward ground sensor (`PlayerMover`):
    collider sizing, sensor calibration, the sensor's layer mask, and the
    per-tick ground check that yields a grounded flag and a velocity that
    keeps the body at stance height above uneven ground. */
module PlayerMover {
  import opened Vectors
  import opened LayerMasks
  import RS = RaycastSensor

  /** The serialized collider settings. The inspector restricts
      `stepHeightRatio` to [0, 1]. */
  datatype MoverConfig = MoverConfig(
    stepHeightRatio: real,
    colliderHeight: real,
    colliderThickness: real,
    colliderOffset: Vec3)

  const DefaultConfig: MoverConfig := MoverConfig(0.1, 2.0, 1.0, Zero)

  /** Small factor that keeps the sensor from clipping into the collider. */
  const SafetyDistanceFactor: real := 0.001

  datatype Capsule = Capsule(height: real, radius: real, center: Vec3)

  /** `RecalculateColliderDimensions`: the capsule stands on a step of
      `stepHeightRatio` of the full height; its radius is half the thickness
      but never more than half the capsule's own height. */
  function ColliderDimensions(cfg: MoverConfig): (c: Capsule)
    ensures c.height == cfg.colliderHeight * (1.0 - cfg.stepHeightRatio)
    ensures c.radius <= cfg.colliderThickness * 0.5 && c.radius <= c.height * 0.5
    ensures c.radius == cfg.colliderThickness * 0.5 || c.radius == c.height * 0.5
    ensures c.center == Add(Scale(cfg.colliderOffset, cfg.colliderHeight),
                            Vec3(0.0, c.height * 0.5 * cfg.stepHeightRatio, 0.0))
  {
    var height := cfg.colliderHeight * (1.0 - cfg.stepHeightRatio);
    var radius := cfg.colliderThickness * 0.5;
    var center := Add(Scale(cfg.colliderOffset, cfg.colliderHeight), Vec3(0.0, height * 0.5 * cfg.stepHeightRatio, 0.0));
    if height * 0.5 < radius then Capsule(height, height * 0.5, center) else Capsule(height, radius, center)
  }

  /** The unscaled sensor length of `RecalibrateSensor`: from the capsule's
      middle down past the step, plus the thickness and a safety margin. */
  function SensorLength(cfg: MoverConfig): real {
    cfg.colliderHeight * (1.0 - cfg.stepHeightRatio) * 0.5 + cfg.colliderThickness + SafetyDistanceFactor
  }

  /** The base sensor range, slightly longer than the initial cast length. */
  function BaseSensorRange(cfg: MoverConfig, localScale: real): real {
    SensorLength(cfg) * (1.0 + SafetyDistanceFactor) * localScale
  }

  /** The cast length used in `CheckForGround`: extended by the step height
      while the extended range is on. */
  function GroundCastLength(cfg: MoverConfig, baseRange: real, lossyScale: real, useExtended: bool): real {
    if useExtended then baseRange + cfg.colliderHeight * lossyScale * cfg.stepHeightRatio else baseRange
  }

  /** With a step ratio in [0, 1] and non-negative height and scale, the
      extended cast reaches at least as far as the base range, and with a
      positive length and scale the base range exceeds the initial cast
      length by the safety factor. */
  lemma CastLengthOrdering(cfg: MoverConfig, baseRange: real, localScale: real, lossyScale: real)
    requires 0.0 <= cfg.stepHeightRatio <= 1.0 && cfg.colliderHeight >= 0.0 && lossyScale >= 0.0
    ensures GroundCastLength(cfg, baseRange, lossyScale, true) >= GroundCastLength(cfg, baseRange, lossyScale, false)
    ensures SensorLength(cfg) * localScale > 0.0 ==>
      BaseSensorRange(cfg, localScale) > SensorLength(cfg) * localScale
  {
    MulNonNegative(cfg.colliderHeight, lossyScale);
    MulNonNegative(cfg.colliderHeight * lossyScale, cfg.stepHeightRatio);
    var l := SensorLength(cfg) * localScale;
    assert BaseSensorRange(cfg, localScale) == l + l * SafetyDistanceFactor;
  }

  lemma MulNonNegative(a: real, b: real)
    requires a >= 0.0 && b >= 0.0
    ensures a * b >= 0.0
  {
  }

  /** The stance height the ground adjustment aims for, measured down from
      the sensor origin. */
  function StanceDistance(cfg: MoverConfig, localScale: real): real {
    var upperLimit := cfg.colliderHeight * localScale * (1.0 - cfg.stepHeightRatio) * 0.5;
    upperLimit + cfg.colliderHeight * localScale * cfg.stepHeightRatio
  }

  /** The speed along the transform's up axis that closes the gap between
      the hit distance and the stance height within one fixed step. */
  function GroundAdjustmentSpeed(cfg: MoverConfig, localScale: real, distance: real, fixedDeltaTime: real): (s: real)
    requires fixedDeltaTime > 0.0
    ensures s > 0.0 <==> distance < StanceDistance(cfg, localScale)
    ensures s == 0.0 <==> distance == StanceDistance(cfg, localScale)
    ensures s * fixedDeltaTime == StanceDistance(cfg, localScale) - distance
  {
    var distanceToGo := StanceDistance(cfg, localScale) - distance;
    distanceToGo / fixedDeltaTime
  }

  /** The number of Unity layers the scan visits. */
  const LayerCount: nat := 32

  /** The scan of `RecalculateSensorLayerMask` over layers 0 to `i - 1`,
      starting from every layer. As written, it clears the layers whose
      collision with `objectLayer` is NOT ignored (`clearIgnored` false);
      the intended scan clears the layers whose collision IS ignored
      (`clearIgnored` true). */
  function LayerMaskScan(objectLayer: int, ignoresCollision: (int, int) -> bool, clearIgnored: bool, i: nat): bv32
    requires i <= LayerCount
  {
    if i == 0 then AllLayers
    else
      var m := LayerMaskScan(objectLayer, ignoresCollision, clearIgnored, i - 1);
      if ignoresCollision(objectLayer, i - 1) == clearIgnored then m & !Bit(i - 1) else m
  }

  /** Bit `j` survives the scan exactly when the scan has not reached it or
      it is not one of the layers the scan clears. */
  lemma {:induction false} LayerMaskScanBit(objectLayer: int, ignoresCollision: (int, int) -> bool, clearIgnored: bool,
                                            i: nat, j: Layer)
    requires i <= LayerCount
    ensures LayerMaskScan(objectLayer, ignoresCollision, clearIgnored, i) & Bit(j) ==
      if j >= i || ignoresCollision(objectLayer, j) != clearIgnored then Bit(j) else 0
  {
    if i == 0 {
      AllOnes(Bit(j));
    } else {
      LayerMaskScanBit(objectLayer, ignoresCollision, clearIgnored, i - 1, j);
      var m := LayerMaskScan(objectLayer, ignoresCollision, clearIgnored, i - 1);
      ScanStepBit(m, i - 1, j, ignoresCollision(objectLayer, i - 1) == clearIgnored);
    }
  }

  /** One step of the scan clears bit `l` when asked and keeps every other
      bit. */
  lemma ScanStepBit(m: bv32, l: Layer, j: Layer, clear: bool)
    ensures (if clear then m & !Bit(l) else m) & Bit(j) == if clear && j == l then 0 else m & Bit(j)
  {
    if clear {
      if j == l {
        AndNotSelf(m, Bit(j));
      } else {
        ClearKeepsOthers(m, l, j);
      }
    }
  }

  /** The last step of the recalculation: "Ignore Raycast" is dropped. */
  function DropIgnoreRaycastLayer(m: bv32): bv32 {
    m & !Bit(IgnoreRaycastLayer)
  }

  /** The full scan followed by dropping the "Ignore Raycast" layer. */
  function MaskAfterScan(objectLayer: int, ignoresCollision: (int, int) -> bool, clearIgnored: bool): bv32 {
    DropIgnoreRaycastLayer(LayerMaskScan(objectLayer, ignoresCollision, clearIgnored, LayerCount))
  }

  /** Bit `j` of the finished mask is set exactly when `j` is not "Ignore
      Raycast" and the scan kept it. */
  lemma MaskAfterScanBit(objectLayer: int, ignoresCollision: (int, int) -> bool, clearIgnored: bool, j: Layer)
    ensures MaskAfterScan(objectLayer, ignoresCollision, clearIgnored) & Bit(j) ==
      if ignoresCollision(objectLayer, j) != clearIgnored && j != IgnoreRaycastLayer then Bit(j) else 0
  {
    var scanned := LayerMaskScan(objectLayer, ignoresCollision, clearIgnored, LayerCount);
    FullScanBit(objectLayer, ignoresCollision, clearIgnored, j);
    DropIgnoreRaycast(scanned, j);
    if j == IgnoreRaycastLayer {
      assert (scanned & !Bit(IgnoreRaycastLayer)) & Bit(j) == 0;
    } else if ignoresCollision(objectLayer, j) != clearIgnored {
      assert (scanned & !Bit(IgnoreRaycastLayer)) & Bit(j) == scanned & Bit(j) == Bit(j);
    } else {
      assert (scanned & !Bit(IgnoreRaycastLayer)) & Bit(j) == scanned & Bit(j) == 0;
    }
  }

  /** After all 32 layers, a bit survives exactly when its layer is not one
      the scan clears. */
  lemma FullScanBit(objectLayer: int, ignoresCollision: (int, int) -> bool, clearIgnored: bool, j: Layer)
    ensures LayerMaskScan(objectLayer, ignoresCollision, clearIgnored, LayerCount) & Bit(j) ==
      if ignoresCollision(objectLayer, j) != clearIgnored then Bit(j) else 0
  {
    LayerMaskScanBit(objectLayer, ignoresCollision, clearIgnored, LayerCount, j);
  }

  /** Clearing the "Ignore Raycast" bit clears it and keeps every other bit. */
  lemma DropIgnoreRaycast(m: bv32, j: Layer)
    ensures (m & !Bit(IgnoreRaycastLayer)) & Bit(j) == if j == IgnoreRaycastLayer then 0 else m & Bit(j)
  {
    if j == IgnoreRaycastLayer {
      AndNotSelf(m, Bit(j));
    } else {
      ClearKeepsOthers(m, IgnoreRaycastLayer, j);
    }
  }

  /** The sensor mask as written: the layers the collision matrix says the
      body's layer IGNORES, minus "Ignore Raycast". */
  function SensorLayerMaskAsWritten(objectLayer: int, ignoresCollision: (int, int) -> bool): (m: bv32)
    ensures LacksBit(m, IgnoreRaycastLayer)
    ensures forall j: Layer :: j != IgnoreRaycastLayer ==> (HasBit(m, j) <==> ignoresCollision(objectLayer, j))
  {
    var m := MaskAfterScan(objectLayer, ignoresCollision, false);
    MaskBits(m, objectLayer, ignoresCollision, false);
    m
  }

  /** The sensor mask as intended: the layers the body's layer collides
      with, minus "Ignore Raycast". */
  function SensorLayerMask(objectLayer: int, ignoresCollision: (int, int) -> bool): (m: bv32)
    ensures LacksBit(m, IgnoreRaycastLayer)
    ensures forall j: Layer :: j != IgnoreRaycastLayer ==> (HasBit(m, j) <==> !ignoresCollision(objectLayer, j))
  {
    var m := MaskAfterScan(objectLayer, ignoresCollision, true);
    MaskBits(m, objectLayer, ignoresCollision, true);
    m
  }

  lemma MaskBits(m: bv32, objectLayer: int, ignoresCollision: (int, int) -> bool, clearIgnored: bool)
    requires m == MaskAfterScan(objectLayer, ignoresCollision, clearIgnored)
    ensures LacksBit(m, IgnoreRaycastLayer)
    ensures forall j: Layer :: j != IgnoreRaycastLayer ==> (HasBit(m, j) <==> ignoresCollision(objectLayer, j) != clearIgnored)
  {
    MaskLacksIgnoreRaycast(objectLayer, ignoresCollision, clearIgnored);
    forall j: Layer | j != IgnoreRaycastLayer
      ensures HasBit(m, j) <==> ignoresCollision(objectLayer, j) != clearIgnored
    {
      MaskHasBit(objectLayer, ignoresCollision, clearIgnored, j);
    }
  }

  lemma MaskLacksIgnoreRaycast(objectLayer: int, ignoresCollision: (int, int) -> bool, clearIgnored: bool)
    ensures LacksBit(MaskAfterScan(objectLayer, ignoresCollision, clearIgnored), IgnoreRaycastLayer)
  {
    MaskAfterScanBit(objectLayer, ignoresCollision, clearIgnored, IgnoreRaycastLayer);
  }

  lemma MaskHasBit(objectLayer: int, ignoresCollision: (int, int) -> bool, clearIgnored: bool, j: Layer)
    requires j != IgnoreRaycastLayer
    ensures HasBit(MaskAfterScan(objectLayer, ignoresCollision, clearIgnored), j) <==> ignoresCollision(objectLayer, j) != clearIgnored
  {
    MaskAfterScanBit(objectLayer, ignoresCollision, clearIgnored, j);
    BitNonZero(j);
  }

  /** As written, a collision matrix that ignores no layer pair (Unity's
      default) leaves the sensor with an empty mask, so the ground cast can
      hit nothing; the intended mask holds every layer but "Ignore
      Raycast". */
  lemma AsWrittenMaskSeesNothing(objectLayer: int, ignoresCollision: (int, int) -> bool)
    requires forall j: Layer :: !ignoresCollision(objectLayer, j)
    ensures forall j: Layer :: LacksBit(SensorLayerMaskAsWritten(objectLayer, ignoresCollision), j)
    ensures forall j: Layer :: j != IgnoreRaycastLayer ==> HasBit(SensorLayerMask(objectLayer, ignoresCollision), j)
  {
    var m := SensorLayerMaskAsWritten(objectLayer, ignoresCollision);
    forall j: Layer ensures LacksBit(m, j) {
      if j != IgnoreRaycastLayer {
        assert !HasBit(m, j);
      }
    }
  }

  /** `RecalculateSensorLayerMask` as written: start from every layer, drop
      each layer whose collision with the body's layer is not ignored, then
      drop "Ignore Raycast". */
  method RecalculateSensorLayerMask(objectLayer: int, ignoresCollision: (int, int) -> bool) returns (layerMask: bv32)
    ensures layerMask == SensorLayerMaskAsWritten(objectLayer, ignoresCollision)
    ensures LacksBit(layerMask, IgnoreRaycastLayer)
    ensures forall j: Layer :: j != IgnoreRaycastLayer ==>
      (HasBit(layerMask, j) <==> ignoresCollision(objectLayer, j))
  {
    var scanned := ScanLayers(objectLayer, ignoresCollision, false);
    layerMask := DropIgnoreRaycastLayer(scanned);
    ScanIsMask(objectLayer, ignoresCollision, false, scanned);
    AsWrittenIsScan(objectLayer, ignoresCollision);
  }

  /** The same loop with the intended test: drop each layer whose collision
      with the body's layer is ignored. */
  method RecalculateSensorLayerMaskCorrected(objectLayer: int, ignoresCollision: (int, int) -> bool) returns (layerMask: bv32)
    ensures layerMask == SensorLayerMask(objectLayer, ignoresCollision)
    ensures LacksBit(layerMask, IgnoreRaycastLayer)
    ensures forall j: Layer :: j != IgnoreRaycastLayer ==>
      (HasBit(layerMask, j) <==> !ignoresCollision(objectLayer, j))
  {
    var scanned := ScanLayers(objectLayer, ignoresCollision, true);
    layerMask := DropIgnoreRaycastLayer(scanned);
    ScanIsMask(objectLayer, ignoresCollision, true, scanned);
    IntendedIsScan(objectLayer, ignoresCollision);
  }

  /** The loop over the 32 layers. */
  method ScanLayers(objectLayer: int, ignoresCollision: (int, int) -> bool, clearIgnored: bool) returns (layerMask: bv32)
    ensures layerMask == LayerMaskScan(objectLayer, ignoresCollision, clearIgnored, LayerCount)
  {
    layerMask := AllLayers;
    var i := 0;
    while i < LayerCount
      invariant 0 <= i <= LayerCount
      invariant layerMask == LayerMaskScan(objectLayer, ignoresCollision, clearIgnored, i)
    {
      if ignoresCollision(objectLayer, i) == clearIgnored {
        layerMask := layerMask & !Bit(i);
      }
      assert layerMask == LayerMaskScan(objectLayer, ignoresCollision, clearIgnored, i + 1);
      i := i + 1;
    }
  }

  /** What the loop leaves, with "Ignore Raycast" dropped, is the scan's
      mask. */
  lemma ScanIsMask(objectLayer: int, ignoresCollision: (int, int) -> bool, clearIgnored: bool, scanned: bv32)
    requires scanned == LayerMaskScan(objectLayer, ignoresCollision, clearIgnored, LayerCount)
    ensures DropIgnoreRaycastLayer(scanned) == MaskAfterScan(objectLayer, ignoresCollision, clearIgnored)
  {
  }

  lemma AsWrittenIsScan(objectLayer: int, ignoresCollision: (int, int) -> bool)
    ensures SensorLayerMaskAsWritten(objectLayer, ignoresCollision) == MaskAfterScan(objectLayer, ignoresCollision, false)
  {
  }

  lemma IntendedIsScan(objectLayer: int, ignoresCollision: (int, int) -> bool)
    ensures SensorLayerMask(objectLayer, ignoresCollision) == MaskAfterScan(objectLayer, ignoresCollision, true)
  {
  }

  lemma BitNonZero(j: Layer)
    ensures Bit(j) != 0
  {
  }

  datatype Mover = Mover(
    cfg: MoverConfig,
    collider: Capsule,
    sensor: RS.Sensor,
    baseSensorRange: real,
    isGrounded: bool,
    groundAdjustmentVelocity: Vec3,
    currentLayer: int,
    useExtendedSensorRange: bool)

  /** `Awake`: size the collider and calibrate a fresh downward sensor for
      the body's layer; the extended range starts on. The cast origin is a
      world position and is not modelled. */
  function Setup(cfg: MoverConfig, objectLayer: int, ignoresCollision: (int, int) -> bool, localScale: real): (m: Mover)
    ensures m.collider == ColliderDimensions(cfg)
    ensures m.sensor.castDirection == RS.Down
    ensures m.sensor.castLength == SensorLength(cfg) * localScale
    ensures m.baseSensorRange == BaseSensorRange(cfg, localScale)
    ensures m.sensor.layerMask == SensorLayerMask(objectLayer, ignoresCollision)
    ensures m.currentLayer == objectLayer && m.useExtendedSensorRange && !m.isGrounded
  {
    var s := RS.SetCastDirection(RS.NewSensor(), RS.Down);
    var s := RS.SetLayerMask(s, SensorLayerMask(objectLayer, ignoresCollision));
    var s := RS.SetCastLength(s, SensorLength(cfg) * localScale);
    Mover(cfg, ColliderDimensions(cfg), s, BaseSensorRange(cfg, localScale), false, Zero, objectLayer, true)
  }

  /** `CheckForGround`: refresh the mask if the body changed layer, cast with
      the (possibly extended) length, and on a hit compute the adjustment
      velocity along the transform's up axis. `outcome` is the physics
      engine's answer to the cast; the fixed time step is positive. */
  function CheckForGround(m: Mover, objectLayer: int, ignoresCollision: (int, int) -> bool,
                          outcome: RS.RaycastHit, up: Vec3, lossyScale: real, localScale: real,
                          fixedDeltaTime: real): (r: Mover)
    requires fixedDeltaTime > 0.0
    ensures r.currentLayer == objectLayer
    ensures m.currentLayer == objectLayer ==> r.sensor.layerMask == m.sensor.layerMask
    ensures m.currentLayer != objectLayer ==> r.sensor.layerMask == SensorLayerMask(objectLayer, ignoresCollision)
    ensures r.sensor.castLength ==
      GroundCastLength(m.cfg, m.baseSensorRange, lossyScale, m.useExtendedSensorRange)
    ensures r.isGrounded <==> outcome.Hit?
    ensures !r.isGrounded ==> r.groundAdjustmentVelocity == Zero
    ensures r.isGrounded ==>
      r.groundAdjustmentVelocity == Scale(up, GroundAdjustmentSpeed(m.cfg, localScale, outcome.distance, fixedDeltaTime))
    ensures r.cfg == m.cfg && r.collider == m.collider && r.baseSensorRange == m.baseSensorRange
    ensures r.useExtendedSensorRange == m.useExtendedSensorRange
  {
    var mask := if m.currentLayer != objectLayer then SensorLayerMask(objectLayer, ignoresCollision) else m.sensor.layerMask;
    var length := GroundCastLength(m.cfg, m.baseSensorRange, lossyScale, m.useExtendedSensorRange);
    var s := RS.Cast(RS.SetCastLength(RS.SetLayerMask(m.sensor, mask), length), outcome);
    var grounded := RS.HasDetectedHit(s);
    var adjustment :=
      if grounded then Scale(up, GroundAdjustmentSpeed(m.cfg, localScale, RS.GetDistance(s), fixedDeltaTime)) else Zero;
    m.(sensor := s, currentLayer := objectLayer, isGrounded := grounded, groundAdjustmentVelocity := adjustment)
  }

  /** `SetVelocity`: the velocity handed to the rigid body carries the
      current ground adjustment on top of the requested velocity. */
  function SetVelocity(m: Mover, velocity: Vec3): (v: Vec3)
    ensures Sub(v, velocity) == m.groundAdjustmentVelocity
    ensures !m.isGrounded && m.groundAdjustmentVelocity == Zero ==> v == velocity
  {
    Add(velocity, m.groundAdjustmentVelocity)
  }

  /** After a ground check that hit nothing, `SetVelocity` passes the
      requested velocity through unchanged; after a hit, the added velocity
      points up the transform exactly when the body sits lower than its
      stance height. */
  lemma AdjustmentDirection(m: Mover, objectLayer: int, ignoresCollision: (int, int) -> bool,
                            outcome: RS.RaycastHit, up: Vec3, lossyScale: real, localScale: real,
                            fixedDeltaTime: real, velocity: Vec3)
    requires fixedDeltaTime > 0.0
    ensures var r := CheckForGround(m, objectLayer, ignoresCollision, outcome, up, lossyScale, localScale, fixedDeltaTime);
      && (outcome.NoHit? ==> SetVelocity(r, velocity) == velocity)
      && (outcome.Hit? ==>
            exists k: real :: (Sub(SetVelocity(r, velocity), velocity) == Scale(up, k) &&
                               (k > 0.0 <==> outcome.distance < StanceDistance(m.cfg, localScale))))
  {
    var r := CheckForGround(m, objectLayer, ignoresCollision, outcome, up, lossyScale, localScale, fixedDeltaTime);
    if outcome.NoHit? {
      assert SetVelocity(r, velocity) == Add(velocity, Zero);
    } else {
      var k := GroundAdjustmentSpeed(m.cfg, localScale, outcome.distance, fixedDeltaTime);
      assert Sub(SetVelocity(r, velocity), velocity) == Scale(up, k);
    }
  }
}
