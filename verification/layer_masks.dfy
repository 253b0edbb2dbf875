/** Unity layer masks as 32-bit vectors. Layer numbers are C# `int`s; the
    expression `1 << layer` shifts by the low five bits of `layer`, which is
    `layer % 32` with Dafny's non-negative remainder. */
module LayerMasks {

  type Layer = j: int | 0 <= j < 32

  /** `Physics.AllLayers`, the C# value -1. */
  const AllLayers: bv32 := 0xFFFF_FFFF

  /** `LayerMask.NameToLayer("Ignore Raycast")`: Unity's built-in layer 2. */
  const IgnoreRaycastLayer: Layer := 2

  /** `1 << layer` in C#: the shift count is taken modulo 32. */
  function ShiftOf(layer: int): Layer {
    layer % 32
  }

  function Bit(j: Layer): bv32 {
    (1 as bv32) << j
  }

  /** Bit `j` of `m` is set. */
  predicate HasBit(m: bv32, j: Layer) {
    m & Bit(j) == Bit(j)
  }

  /** Bit `j` of `m` is clear. */
  predicate LacksBit(m: bv32, j: Layer) {
    m & Bit(j) == 0
  }

  /** Two different layers have disjoint bits. */
  lemma BitsDisjoint(l: Layer, j: Layer)
    ensures l != j ==> Bit(l) & Bit(j) == 0
  {
  }

  lemma OrSelf(m: bv32, b: bv32)
    ensures (m | b) & b == b
  {
  }

  lemma OrOther(m: bv32, b: bv32, c: bv32)
    requires b & c == 0
    ensures (m | c) & b == m & b
  {
  }

  lemma AndNotSelf(m: bv32, b: bv32)
    ensures (m & !b) & b == 0
  {
  }

  lemma AndNotOther(m: bv32, b: bv32, c: bv32)
    requires b & c == 0
    ensures (m & !c) & b == m & b
  {
  }

  lemma AllOnes(b: bv32)
    ensures AllLayers & b == b
  {
  }

  /** Setting bit `l` leaves bit `j != l` as it was. */
  lemma SetKeepsOthers(m: bv32, l: Layer, j: Layer)
    requires j != l
    ensures (m | Bit(l)) & Bit(j) == m & Bit(j)
  {
    BitsDisjoint(l, j);
    OrOther(m, Bit(j), Bit(l));
  }

  /** Clearing bit `l` leaves bit `j != l` as it was. */
  lemma ClearKeepsOthers(m: bv32, l: Layer, j: Layer)
    requires j != l
    ensures (m & !Bit(l)) & Bit(j) == m & Bit(j)
  {
    BitsDisjoint(l, j);
    AndNotOther(m, Bit(j), Bit(l));
  }

  /** `mask |= 1 << layer`. */
  function SetLayer(m: bv32, layer: int): (r: bv32)
    ensures HasBit(r, ShiftOf(layer))
    ensures forall j: Layer :: j != ShiftOf(layer) ==> r & Bit(j) == m & Bit(j)
  {
    SetBitOnly(m, ShiftOf(layer));
    m | Bit(ShiftOf(layer))
  }

  /** `mask &= ~(1 << layer)`. */
  function ClearLayer(m: bv32, layer: int): (r: bv32)
    ensures LacksBit(r, ShiftOf(layer))
    ensures forall j: Layer :: j != ShiftOf(layer) ==> r & Bit(j) == m & Bit(j)
  {
    ClearBitOnly(m, ShiftOf(layer));
    m & !Bit(ShiftOf(layer))
  }

  /** Setting bit `l` sets it and keeps every other bit. */
  lemma SetBitOnly(m: bv32, l: Layer)
    ensures HasBit(m | Bit(l), l)
    ensures forall j: Layer :: j != l ==> (m | Bit(l)) & Bit(j) == m & Bit(j)
  {
    OrSelf(m, Bit(l));
    forall j: Layer | j != l
      ensures (m | Bit(l)) & Bit(j) == m & Bit(j)
    {
      SetKeepsOthers(m, l, j);
    }
  }

  /** Clearing bit `l` clears it and keeps every other bit. */
  lemma ClearBitOnly(m: bv32, l: Layer)
    ensures LacksBit(m & !Bit(l), l)
    ensures forall j: Layer :: j != l ==> (m & !Bit(l)) & Bit(j) == m & Bit(j)
  {
    AndNotSelf(m, Bit(l));
    forall j: Layer | j != l
      ensures (m & !Bit(l)) & Bit(j) == m & Bit(j)
    {
      ClearKeepsOthers(m, l, j);
    }
  }
}
