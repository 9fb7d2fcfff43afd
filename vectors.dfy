/** Three-component vectors over the reals, standing in for Unity.Mathematics'
    float3 and quaternion, with the square root injected as a parameter.

    Every operation that needs a square root (math.length, math.distance,
    math.normalize) is built from a function `sqrt` that the caller supplies
    together with the fact `IsSqrt(sqrt)`: its result is non-negative and
    squares back to its argument.

    Squares are written with `Sq` rather than as raw products, and each
    non-linear fact is proved once, in a small lemma of its own. */
module Vectors {

  datatype Vec3 = Vec3(x: real, y: real, z: real)

  /** A rotation; the model never looks inside one. */
  datatype Quat = Quat(x: real, y: real, z: real, w: real)

  /** LocalTransform, restricted to the two components the boid systems set. */
  datatype Transform = Transform(position: Vec3, rotation: Quat)

  const Zero: Vec3 := Vec3(0.0, 0.0, 0.0)

  function Add(a: Vec3, b: Vec3): Vec3 {
    Vec3(a.x + b.x, a.y + b.y, a.z + b.z)
  }

  function Sub(a: Vec3, b: Vec3): Vec3 {
    Vec3(a.x - b.x, a.y - b.y, a.z - b.z)
  }

  function Scale(v: Vec3, k: real): Vec3 {
    Vec3(v.x * k, v.y * k, v.z * k)
  }

  /** Component-wise division by a scalar (float3 / float). */
  function Div(v: Vec3, k: real): Vec3
    requires k != 0.0
  {
    Vec3(v.x / k, v.y / k, v.z / k)
  }

  function Dot(a: Vec3, b: Vec3): real {
    a.x * b.x + a.y * b.y + a.z * b.z
  }

  function Sq(x: real): real {
    x * x
  }

  // ---------------------------------------------------------------------
  // Facts about squares, each proved in isolation.

  lemma MulPositive(a: real, b: real)
    requires 0.0 < a && 0.0 < b
    ensures 0.0 < a * b
  {
  }

  lemma MulNonNegative(a: real, b: real)
    requires 0.0 <= a && 0.0 <= b
    ensures 0.0 <= a * b
  {
  }

  lemma SqOfPositive(y: real)
    requires 0.0 < y
    ensures 0.0 < Sq(y)
  {
    calc {
      Sq(y);
    ==
      y * y;
    >
      0.0;
    }
  }

  lemma SqNeg(x: real)
    ensures Sq(-x) == Sq(x)
  {
  }

  /** A square is non-negative, and positive away from zero. */
  lemma SqPositive(x: real)
    ensures 0.0 <= Sq(x)
    ensures x != 0.0 ==> 0.0 < Sq(x)
  {
    if x > 0.0 {
      SqOfPositive(x);
    } else if x < 0.0 {
      SqOfPositive(-x);
      SqNeg(x);
    }
  }

  lemma SqMul(a: real, b: real)
    ensures Sq(a * b) == Sq(a) * Sq(b)
  {
  }

  lemma DiffOfSquares(a: real, b: real)
    ensures Sq(b) - Sq(a) == (b - a) * (b + a)
  {
  }

  /** Two non-negative reals compare as their squares do. */
  lemma SqMonotonic(a: real, b: real)
    requires 0.0 <= a && 0.0 <= b
    ensures a < b <==> Sq(a) < Sq(b)
  {
    DiffOfSquares(a, b);
    if a < b {
      MulPositive(b - a, b + a);
    } else {
      DiffOfSquares(b, a);
      MulNonNegative(a - b, a + b);
    }
  }

  lemma SqOfSum(p: real, q: real)
    ensures Sq(p + q) == Sq(p) + 2.0 * (p * q) + Sq(q)
  {
  }

  lemma SqOfDifference(p: real, q: real)
    ensures Sq(p - q) == Sq(p) - 2.0 * (p * q) + Sq(q)
  {
  }

  // ---------------------------------------------------------------------
  // Norms and distances.

  /** The squared Euclidean norm; it vanishes exactly at the zero vector. */
  function SqNorm(v: Vec3): (r: real)
    ensures 0.0 <= r
    ensures r == 0.0 <==> v == Zero
  {
    SqPositive(v.x);
    SqPositive(v.y);
    SqPositive(v.z);
    Sq(v.x) + Sq(v.y) + Sq(v.z)
  }

  /** The squared Euclidean distance between two points. */
  function SqDist(a: Vec3, b: Vec3): real {
    SqNorm(Sub(a, b))
  }

  lemma SqDistSymmetric(a: Vec3, b: Vec3)
    ensures SqDist(a, b) == SqDist(b, a)
  {
    SqNeg(b.x - a.x);
    SqNeg(b.y - a.y);
    SqNeg(b.z - a.z);
  }

  lemma SqNormScale(v: Vec3, k: real)
    ensures SqNorm(Scale(v, k)) == Sq(k) * SqNorm(v)
  {
    SqMul(v.x, k);
    SqMul(v.y, k);
    SqMul(v.z, k);
  }

  lemma ScaleCommutes(v: Vec3, a: real, b: real)
    ensures Scale(Scale(v, a), b) == Scale(Scale(v, b), a)
  {
  }

  lemma SubZero(a: Vec3, b: Vec3)
    ensures Sub(a, b) == Zero <==> a == b
  {
  }

  lemma AddScaledZero(v: Vec3, k: real)
    ensures Add(v, Scale(Zero, k)) == v
  {
  }

  lemma ScaleSucc(v: Vec3, n: real)
    ensures Add(Scale(v, n), v) == Scale(v, n + 1.0)
  {
  }

  lemma ScaleThenDiv(v: Vec3, k: real)
    requires k != 0.0
    ensures Div(Scale(v, k), k) == v
  {
  }

  lemma DotScale(v: Vec3, w: Vec3, k: real)
    ensures Dot(Scale(v, k), w) == k * Dot(v, w)
  {
  }

  lemma DotCommutes(v: Vec3, w: Vec3)
    ensures Dot(v, w) == Dot(w, v)
  {
  }

  lemma SqNormAdd(a: Vec3, b: Vec3)
    ensures SqNorm(Add(a, b)) == SqNorm(a) + 2.0 * Dot(a, b) + SqNorm(b)
  {
    SqOfSum(a.x, b.x);
    SqOfSum(a.y, b.y);
    SqOfSum(a.z, b.z);
  }

  /** 2 a.b <= |a|^2 + |b|^2, because |a - b|^2 >= 0. */
  lemma DotBound(a: Vec3, b: Vec3)
    ensures 2.0 * Dot(a, b) <= SqNorm(a) + SqNorm(b)
  {
    SqOfDifference(a.x, b.x);
    SqOfDifference(a.y, b.y);
    SqOfDifference(a.z, b.z);
    assert 0.0 <= SqNorm(Sub(a, b));
  }

  /** `sqrt` is a square root on the non-negative reals. */
  ghost predicate IsSqrt(sqrt: real -> real) {
    forall x: real {:trigger sqrt(x)} :: 0.0 <= x ==> 0.0 <= sqrt(x) && Sq(sqrt(x)) == x
  }

  /** math.length. */
  function Length(sqrt: real -> real, v: Vec3): (r: real)
    requires IsSqrt(sqrt)
    ensures 0.0 <= r && Sq(r) == SqNorm(v)
  {
    var r := sqrt(SqNorm(v));
    SqPositive(r);
    r
  }

  /** math.distance(a, b), the length of b - a. */
  function Distance(sqrt: real -> real, a: Vec3, b: Vec3): (r: real)
    requires IsSqrt(sqrt)
    ensures 0.0 <= r && Sq(r) == SqDist(a, b)
  {
    SqDistSymmetric(a, b);
    Length(sqrt, Sub(b, a))
  }

  /** Distance is symmetric, although it is computed as the length of b - a. */
  lemma DistanceSymmetric(sqrt: real -> real, a: Vec3, b: Vec3)
    requires IsSqrt(sqrt)
    ensures Distance(sqrt, a, b) == Distance(sqrt, b, a)
  {
    var d, e := Distance(sqrt, a, b), Distance(sqrt, b, a);
    SqDistSymmetric(a, b);
    SqMonotonic(d, e);
    SqMonotonic(e, d);
  }

  /** math.normalize: the unit vector pointing the same way as a non-zero `v`
      (scaling it back by |v| gives `v`). */
  function Normalize(sqrt: real -> real, v: Vec3): (r: Vec3)
    requires IsSqrt(sqrt) && v != Zero
    ensures SqNorm(r) == 1.0
    ensures Scale(r, Length(sqrt, v)) == v
  {
    var len := Length(sqrt, v);
    assert len != 0.0 by {
      SqPositive(len);
    }
    var k := 1.0 / len;
    SqNormScale(v, k);
    SqMul(k, len);
    assert k * len == 1.0;
    Scale(v, k)
  }
}
