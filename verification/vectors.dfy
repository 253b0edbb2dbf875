/** Three-dimensional vectors over the reals, standing in for Unity's
    `Vector3`. Only the operations the locomotion code uses are defined;
    square roots (`magnitude`, `normalized`) are supplied from outside as a
    `Norm` function, because they are not expressible over the reals here. */
module Vectors {

  datatype Vec3 = Vec3(x: real, y: real, z: real)

  const Zero: Vec3 := Vec3(0.0, 0.0, 0.0)
  const Up: Vec3 := Vec3(0.0, 1.0, 0.0)
  const Down: Vec3 := Vec3(0.0, -1.0, 0.0)

  function Add(a: Vec3, b: Vec3): Vec3 {
    Vec3(a.x + b.x, a.y + b.y, a.z + b.z)
  }

  function Sub(a: Vec3, b: Vec3): Vec3 {
    Vec3(a.x - b.x, a.y - b.y, a.z - b.z)
  }

  function Neg(a: Vec3): Vec3 {
    Vec3(-a.x, -a.y, -a.z)
  }

  function Scale(a: Vec3, k: real): Vec3 {
    Vec3(a.x * k, a.y * k, a.z * k)
  }

  function Dot(a: Vec3, b: Vec3): real {
    a.x * b.x + a.y * b.y + a.z * b.z
  }

  function Cross(a: Vec3, b: Vec3): Vec3 {
    Vec3(a.y * b.z - a.z * b.y, a.z * b.x - a.x * b.z, a.x * b.y - a.y * b.x)
  }

  /** `v.WithY(y)`: the same vector with its vertical component replaced. */
  function WithY(v: Vec3, y: real): Vec3 {
    Vec3(v.x, y, v.z)
  }

  /** `v.RemoveDotVector(n)`: `v` without its component along `n`. */
  function RemoveDot(v: Vec3, n: Vec3): Vec3 {
    Sub(v, Scale(n, Dot(v, n)))
  }

  predicate IsUnit(n: Vec3) {
    Dot(n, n) == 1.0
  }

  /** Vector3.magnitude, provided by the caller; a length is never negative. */
  type Norm = f: Vec3 -> real | forall v :: f(v) >= 0.0 witness (v: Vec3) => 0.0

  /** `norm` returns the Euclidean length of `v`. */
  predicate NormAt(norm: Norm, v: Vec3) {
    norm(v) * norm(v) == Dot(v, v)
  }

  /** Unity's `normalized`: zero for vectors shorter than 1e-5. */
  function Normalize(v: Vec3, norm: Norm): (r: Vec3)
    ensures norm(v) <= 0.00001 ==> r == Zero
    ensures norm(v) > 0.00001 ==> r == Scale(v, 1.0 / norm(v))
  {
    if norm(v) > 0.00001 then Scale(v, 1.0 / norm(v)) else Zero
  }

  /** A normalized vector longer than the threshold has unit length. */
  lemma NormalizeIsUnit(v: Vec3, norm: Norm)
    requires NormAt(norm, v) && norm(v) > 0.00001
    ensures IsUnit(Normalize(v, norm))
  {
    var n := norm(v);
    var k := 1.0 / n;
    DotScale(v, k);
    assert k * k * (n * n) == (k * n) * (k * n);
  }

  /** Normalizing a unit vector gives the vector back. */
  lemma NormalizeUnit(n: Vec3, norm: Norm)
    requires IsUnit(n) && NormAt(norm, n)
    ensures norm(n) == 1.0 && Normalize(n, norm) == n
  {
    var l := norm(n);
    assert (l - 1.0) * (l + 1.0) == l * l - 1.0 == 0.0;
    ZeroProduct(l - 1.0, l + 1.0);
  }

  /** A stick reading clamped to unit length: a reading longer than 1 is
      normalized, a shorter one is kept as it is. */
  function ClampToUnit(input: Vec3, norm: Norm): (m: Vec3)
    ensures norm(input) <= 1.0 ==> m == input
    ensures NormAt(norm, input) ==> Dot(m, m) <= 1.0
  {
    ClampedInputBounded(input, norm);
    if norm(input) > 1.0 then Normalize(input, norm) else input
  }

  /** Either branch of the clamp has length at most 1. */
  lemma ClampedInputBounded(input: Vec3, norm: Norm)
    ensures var m := if norm(input) > 1.0 then Normalize(input, norm) else input;
      NormAt(norm, input) ==> Dot(m, m) <= 1.0
  {
    if NormAt(norm, input) {
      if norm(input) > 1.0 {
        NormalizeIsUnit(input, norm);
      } else if norm(input) < 1.0 {
        SquareLess(norm(input), 1.0);
      }
    }
  }

  /** Unity's smallest positive float, `Mathf.Epsilon`. */
  const FloatEpsilon: real := 0.000000000000000000000000000000000000000000001401298

  /** `Vector3.ProjectOnPlane(v, n)`: `v` without its component along `n`;
      a (numerically) zero normal leaves `v` as it is. */
  function ProjectOnPlane(v: Vec3, n: Vec3): (r: Vec3)
    ensures Dot(n, n) < FloatEpsilon ==> r == v
    ensures Dot(n, n) >= FloatEpsilon ==> Dot(r, n) == 0.0
    ensures Dot(n, n) >= FloatEpsilon ==> exists k: real :: r == Sub(v, Scale(n, k))
  {
    var sq := Dot(n, n);
    if sq < FloatEpsilon then v
    else
      var k := Dot(v, n) / sq;
      assert Dot(Sub(v, Scale(n, k)), n) == Dot(v, n) - k * sq;
      Sub(v, Scale(n, k))
  }

  /** Exact test of `|v| > m` without taking a square root. */
  predicate LongerThan(v: Vec3, m: real) {
    m < 0.0 || Dot(v, v) > m * m
  }

  /** Exact test of `|v| < m` without taking a square root. */
  predicate ShorterThan(v: Vec3, m: real) {
    m > 0.0 && Dot(v, v) < m * m
  }

  lemma DotSelfNonNegative(v: Vec3)
    ensures Dot(v, v) >= 0.0
  {
    assert v.x * v.x >= 0.0 && v.y * v.y >= 0.0 && v.z * v.z >= 0.0;
  }

  /** The squared-length tests agree with a true length. */
  lemma LengthTests(norm: Norm, v: Vec3, m: real)
    requires NormAt(norm, v)
    ensures LongerThan(v, m) <==> norm(v) > m
    ensures ShorterThan(v, m) <==> norm(v) < m
  {
    var n := norm(v);
    if m >= 0.0 {
      if n > m {
        SquareLess(m, n);
      } else if n < m {
        SquareLess(n, m);
      }
    }
  }

  /** Squaring is strictly increasing on the non-negative reals. */
  lemma SquareLess(a: real, b: real)
    requires 0.0 <= a < b
    ensures a * a < b * b
  {
    MulPositive(b - a, b + a);
    assert b * b - a * a == (b - a) * (b + a);
  }

  lemma ZeroProduct(a: real, b: real)
    requires a * b == 0.0 && b != 0.0
    ensures a == 0.0
  {
  }

  lemma MulPositive(a: real, b: real)
    requires a > 0.0 && b > 0.0
    ensures a * b > 0.0
  {
  }

  /** `a x b` is perpendicular to `a`. */
  lemma CrossPerpendicular(a: Vec3, b: Vec3)
    ensures Dot(a, Cross(a, b)) == 0.0
  {
  }

  /** Removing the component along a unit normal leaves a vector in the
      plane of that normal. */
  lemma RemoveDotOrthogonal(v: Vec3, n: Vec3)
    requires IsUnit(n)
    ensures Dot(RemoveDot(v, n), n) == 0.0
  {
    var k := Dot(v, n);
    calc {
      Dot(RemoveDot(v, n), n);
      Dot(v, n) - k * Dot(n, n);
    }
  }

  lemma DotScaleLeft(a: Vec3, k: real, b: Vec3)
    ensures Dot(Scale(a, k), b) == k * Dot(a, b)
  {
  }

  /** A vector in the plane of a unit normal plus `k` times the normal has
      component `k` along the normal and in-plane part the original vector. */
  lemma SplitAlongNormal(f: Vec3, n: Vec3, k: real)
    requires IsUnit(n) && Dot(f, n) == 0.0
    ensures Dot(Add(f, Scale(n, k)), n) == k
    ensures RemoveDot(Add(f, Scale(n, k)), n) == f
  {
    var r := Add(f, Scale(n, k));
    assert Dot(r, n) == Dot(f, n) + k * Dot(n, n);
  }

  /** A unit vector scaled by `k` has squared length `k * k`. */
  lemma ScaledUnitLength(f: Vec3, k: real)
    requires IsUnit(f)
    ensures Dot(Scale(f, k), Scale(f, k)) == k * k
  {
    DotScale(f, k);
  }

  /** The length of a scaled vector. */
  lemma DotScale(v: Vec3, k: real)
    ensures Dot(Scale(v, k), Scale(v, k)) == k * k * Dot(v, v)
  {
  }

  /** A difference from the zero vector is the vector itself, and scaling
      by one changes nothing. */
  lemma ZeroAndOne(x: Vec3, d: Vec3)
    ensures Sub(x, Zero) == d ==> x == d
    ensures Scale(x, 1.0) == x
  {
  }
}
