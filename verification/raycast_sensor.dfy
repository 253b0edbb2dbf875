/** The ray-cast ground sensor (`RaycastSensor`): cast settings, the layer
    mask, the direction table and the last hit. The ray cast itself is the
    physics engine's query; its outcome is passed in to `Cast`. */
module RaycastSensor {
  import V = Vectors
  import opened LayerMasks

  datatype CastDirection = Forward | Right | Up | Backward | Left | Down

  /** The last `RaycastHit`. A miss leaves Unity's default hit, whose
      collider is null and whose distance is zero. */
  datatype RaycastHit = NoHit | Hit(distance: real, normal: V.Vec3)

  /** The axes of the transform the sensor is attached to. */
  datatype Axes = Axes(forward: V.Vec3, right: V.Vec3, up: V.Vec3)

  datatype Sensor = Sensor(
    castLength: real,
    layerMask: bv32,
    castDirection: CastDirection,
    origin: V.Vec3,
    hitInfo: RaycastHit)

  /** `new RaycastSensor(transform)`: cast length 1, mask 255 (layers 0 to 7),
      the first direction, and no hit yet. */
  function NewSensor(): (s: Sensor)
    ensures s.castLength == 1.0 && s.layerMask == 255
    ensures forall j: Layer :: j < 8 ==> HasBit(s.layerMask, j)
    ensures forall j: Layer :: j >= 8 ==> LacksBit(s.layerMask, j)
    ensures s.castDirection == Forward && s.origin == V.Zero
    ensures !HasDetectedHit(s)
  {
    Sensor(1.0, 255, Forward, V.Zero, NoHit)
  }

  function SetCastLength(s: Sensor, length: real): (r: Sensor)
    ensures GetCastLength(r) == length
    ensures r.layerMask == s.layerMask && r.castDirection == s.castDirection
    ensures r.origin == s.origin && r.hitInfo == s.hitInfo
  {
    s.(castLength := length)
  }

  function GetCastLength(s: Sensor): real {
    s.castLength
  }

  /** Setting the cast length and reading it back gives the value set, and
      setting it twice keeps only the second value. */
  lemma CastLengthRoundTrip(s: Sensor, a: real, b: real)
    ensures GetCastLength(SetCastLength(s, a)) == a
    ensures SetCastLength(SetCastLength(s, a), b) == SetCastLength(s, b)
    ensures SetCastLength(s, GetCastLength(s)) == s
  {
  }

  function SetCastDirection(s: Sensor, d: CastDirection): (r: Sensor)
    ensures r.castDirection == d && r.(castDirection := s.castDirection) == s
  {
    s.(castDirection := d)
  }

  function SetLayerMask(s: Sensor, mask: bv32): (r: Sensor)
    ensures r.layerMask == mask && r.(layerMask := s.layerMask) == s
  {
    s.(layerMask := mask)
  }

  /** `AddLayer(layer)`: bit `layer` set, every other bit as it was. */
  function AddLayer(s: Sensor, layer: int): (r: Sensor)
    ensures HasBit(r.layerMask, ShiftOf(layer))
    ensures forall j: Layer :: j != ShiftOf(layer) ==> r.layerMask & Bit(j) == s.layerMask & Bit(j)
    ensures r.(layerMask := s.layerMask) == s
  {
    s.(layerMask := SetLayer(s.layerMask, layer))
  }

  /** `RemoveLayer(layer)`: bit `layer` clear, every other bit as it was. */
  function RemoveLayer(s: Sensor, layer: int): (r: Sensor)
    ensures LacksBit(r.layerMask, ShiftOf(layer))
    ensures forall j: Layer :: j != ShiftOf(layer) ==> r.layerMask & Bit(j) == s.layerMask & Bit(j)
    ensures r.(layerMask := s.layerMask) == s
  {
    s.(layerMask := ClearLayer(s.layerMask, layer))
  }

  /** Adding a layer twice is adding it once; removing a layer just added
      leaves its bit clear and the other bits as they were before the add. */
  lemma AddRemoveLaws(s: Sensor, layer: int)
    ensures AddLayer(AddLayer(s, layer), layer) == AddLayer(s, layer)
    ensures LacksBit(RemoveLayer(AddLayer(s, layer), layer).layerMask, ShiftOf(layer))
    ensures forall j: Layer :: j != ShiftOf(layer) ==>
      RemoveLayer(AddLayer(s, layer), layer).layerMask & Bit(j) == s.layerMask & Bit(j)
  {
    var b := Bit(ShiftOf(layer));
    assert (s.layerMask | b) | b == s.layerMask | b;
  }

  /** `GetCastDirection()`: the direction table over the transform's axes. */
  function GetCastDirection(d: CastDirection, axes: Axes): V.Vec3 {
    match d
    case Forward => axes.forward
    case Right => axes.right
    case Up => axes.up
    case Backward => V.Neg(axes.forward)
    case Left => V.Neg(axes.right)
    case Down => V.Neg(axes.up)
  }

  /** Backward, Left and Down are the opposites of Forward, Right and Up. */
  lemma OppositeDirections(axes: Axes)
    ensures GetCastDirection(Backward, axes) == V.Neg(GetCastDirection(Forward, axes))
    ensures GetCastDirection(Left, axes) == V.Neg(GetCastDirection(Right, axes))
    ensures GetCastDirection(Down, axes) == V.Neg(GetCastDirection(Up, axes))
    ensures V.Add(GetCastDirection(Down, axes), GetCastDirection(Up, axes)) == V.Zero
  {
  }

  /** `Cast()`: store the physics engine's answer for the current settings. */
  function Cast(s: Sensor, outcome: RaycastHit): (r: Sensor)
    ensures r.hitInfo == outcome && r.(hitInfo := s.hitInfo) == s
  {
    s.(hitInfo := outcome)
  }

  /** `HasDetectedHit()`: the last hit has a collider. */
  predicate HasDetectedHit(s: Sensor) {
    s.hitInfo.Hit?
  }

  /** `GetDistance()`: the hit distance, or the default zero after a miss. */
  function GetDistance(s: Sensor): (d: real)
    ensures !HasDetectedHit(s) ==> d == 0.0
    ensures HasDetectedHit(s) ==> d == s.hitInfo.distance
  {
    match s.hitInfo
    case NoHit => 0.0
    case Hit(distance, _) => distance
  }

  /** `GetNormal()`: the hit normal, or the default zero vector after a miss. */
  function GetNormal(s: Sensor): (n: V.Vec3)
    ensures !HasDetectedHit(s) ==> n == V.Zero
    ensures HasDetectedHit(s) ==> n == s.hitInfo.normal
  {
    match s.hitInfo
    case NoHit => V.Zero
    case Hit(_, normal) => normal
  }
}
