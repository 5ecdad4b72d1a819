/**
 * The four-component vector of lib/lib.c, over the reals.
 *
 * Every operation returns a new vector built component by component; no
 * operation updates its arguments.  The square root used by `magnitude` is
 * a parameter of the model: any function `sqrt` that satisfies `IsSqrt`.
 */
module Vec {

  /** A homogeneous point (w = 1), a direction (w = 0) or a colour (w = 1). */
  datatype Vec4 = Vec4(x: real, y: real, z: real, w: real)

  /** A texture coordinate. */
  datatype Vec2 = Vec2(s: real, t: real)

  const Zero: Vec4 := Vec4(0.0, 0.0, 0.0, 0.0)

  /** `sqrt` returns the non-negative square root of every non-negative real. */
  ghost predicate IsSqrt(sqrt: real -> real) {
    forall r: real :: 0.0 <= r ==> 0.0 <= sqrt(r) && sqrt(r) * sqrt(r) == r
  }

  /** multScalVec: every component, w included, is multiplied by `s`. */
  function MultScalVec(v: Vec4, s: real): Vec4 {
    Vec4(v.x * s, v.y * s, v.z * s, v.w * s)
  }

  /** addVec: component-wise sum over all four components. */
  function AddVec(v: Vec4, u: Vec4): (r: Vec4)
    ensures SubVec(r, u) == v
  {
    Vec4(v.x + u.x, v.y + u.y, v.z + u.z, v.w + u.w)
  }

  /** subVec: v - u, component-wise over all four components. */
  function SubVec(v: Vec4, u: Vec4): Vec4 {
    Vec4(v.x - u.x, v.y - u.y, v.z - u.z, v.w - u.w)
  }

  /** dotVec: the sum of the four products, w included. */
  function DotVec(v: Vec4, u: Vec4): real {
    v.x * u.x + v.y * u.y + v.z * u.z + v.w * u.w
  }

  /** The three-component dot product, used to state what crossVec promises. */
  function Dot3(v: Vec4, u: Vec4): real {
    v.x * u.x + v.y * u.y + v.z * u.z
  }

  /** crossVec: the cross product of the xyz parts; w is always 0. */
  function CrossVec(v: Vec4, u: Vec4): Vec4 {
    Vec4(v.y * u.z - v.z * u.y,
         v.z * u.x - v.x * u.z,
         v.x * u.y - v.y * u.x,
         0.0)
  }

  lemma DotSelfNonNegative(v: Vec4)
    ensures DotVec(v, v) >= 0.0
  {
    assert v.x * v.x >= 0.0 && v.y * v.y >= 0.0;
    assert v.z * v.z >= 0.0 && v.w * v.w >= 0.0;
  }

  /** magnitude: the square root of dotVec(v, v), so w counts in the length. */
  function Magnitude(v: Vec4, sqrt: real -> real): (m: real)
    requires IsSqrt(sqrt)
    ensures 0.0 <= m && m * m == DotVec(v, v)
  {
    DotSelfNonNegative(v);
    sqrt(DotVec(v, v))
  }

  /**
   * normalize: v scaled by 1 / magnitude(v).  The source divides without a
   * guard, so a zero-length vector is excluded by the precondition.
   */
  function Normalize(v: Vec4, sqrt: real -> real): (r: Vec4)
    requires IsSqrt(sqrt) && Magnitude(v, sqrt) != 0.0
    ensures DotVec(r, r) == 1.0
    ensures MultScalVec(r, Magnitude(v, sqrt)) == v
  {
    var m := Magnitude(v, sqrt);
    var r := MultScalVec(v, 1.0 / m);
    ScaledDot(v, 1.0 / m);
    assert DotVec(r, r) == (1.0 / m) * (1.0 / m) * (m * m);
    assert (1.0 / m) * (1.0 / m) * (m * m) == 1.0;
    r
  }

  /** Scaling both arguments of a self dot product scales it by s². */
  lemma ScaledDot(v: Vec4, s: real)
    ensures DotVec(MultScalVec(v, s), MultScalVec(v, s)) == s * s * DotVec(v, v)
  {
    var r := MultScalVec(v, s);
    assert r.x * r.x == s * s * (v.x * v.x);
    assert r.y * r.y == s * s * (v.y * v.y);
    assert r.z * r.z == s * s * (v.z * v.z);
    assert r.w * r.w == s * s * (v.w * v.w);
  }

  // ---------------------------------------------------------------------------
  // Algebraic laws

  lemma SubAfterAdd(v: Vec4, u: Vec4)
    ensures SubVec(AddVec(v, u), u) == v
    ensures AddVec(SubVec(v, u), u) == v
  {
  }

  lemma AddCommutes(v: Vec4, u: Vec4)
    ensures AddVec(v, u) == AddVec(u, v)
  {
  }

  lemma ScaleByOne(v: Vec4)
    ensures MultScalVec(v, 1.0) == v
  {
  }

  lemma AddNegationIsZero(v: Vec4)
    ensures AddVec(v, MultScalVec(v, -1.0)) == Zero
  {
  }

  lemma DotSymmetric(v: Vec4, u: Vec4)
    ensures DotVec(v, u) == DotVec(u, v)
  {
  }

  /** The w component takes part in the dot product: it differs from Dot3 by v.w * u.w. */
  lemma DotIncludesW(v: Vec4, u: Vec4)
    ensures DotVec(v, u) == Dot3(v, u) + v.w * u.w
  {
  }

  lemma CrossIgnoresW(v: Vec4, u: Vec4, vw: real, uw: real)
    ensures CrossVec(v, u).w == 0.0
    ensures CrossVec(v.(w := vw), u.(w := uw)) == CrossVec(v, u)
  {
  }

  lemma CrossAntiSymmetric(v: Vec4, u: Vec4)
    ensures CrossVec(u, v) == MultScalVec(CrossVec(v, u), -1.0)
  {
  }

  /** The xyz part of the cross product is orthogonal to both inputs' xyz parts. */
  lemma CrossOrthogonal(v: Vec4, u: Vec4)
    ensures Dot3(CrossVec(v, u), v) == 0.0
    ensures Dot3(CrossVec(v, u), u) == 0.0
  {
    var c := CrossVec(v, u);
    assert c.x * v.x == v.y * u.z * v.x - v.z * u.y * v.x;
    assert c.y * v.y == v.z * u.x * v.y - v.x * u.z * v.y;
    assert c.z * v.z == v.x * u.y * v.z - v.y * u.x * v.z;
    assert c.x * u.x == v.y * u.z * u.x - v.z * u.y * u.x;
    assert c.y * u.y == v.z * u.x * u.y - v.x * u.z * u.y;
    assert c.z * u.z == v.x * u.y * u.z - v.y * u.x * u.z;
  }

  /** The inputs of lab2/main.c: v1 = (1,2,3,4), v2 = (5,6,7,8). */
  lemma Lab2Scenario(sqrt: real -> real)
    requires IsSqrt(sqrt)
    ensures DotVec(Vec4(1.0, 2.0, 3.0, 4.0), Vec4(5.0, 6.0, 7.0, 8.0)) == 70.0
    ensures CrossVec(Vec4(1.0, 2.0, 3.0, 4.0), Vec4(5.0, 6.0, 7.0, 8.0)) == Vec4(-4.0, 8.0, -4.0, 0.0)
    ensures Magnitude(Vec4(1.0, 2.0, 3.0, 4.0), sqrt) == sqrt(30.0)
  {
  }
}
