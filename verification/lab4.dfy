/**
 * lab4/lab4.c: a smaller cone (radius 0.25, height 0.5) whose side
 * triangles list the rim points in the opposite order to the base
 * triangles, and an idle callback that advances a rotation angle.
 */
module Lab4 {
  import opened Vec
  import opened Mesh

  const NumCircTriangles: nat := 50
  const Radius: real := 0.25
  const Height: real := 0.5
  /** The angle of one slice. */
  const Theta: real := 2.0 * Pi / 50.0

  /** Centre of the base circle. */
  const BaseCenter: Vec4 := Vec4(0.0, -0.5, 0.0, 1.0)

  /** The point of the base circle at angle a. */
  function RimPoint(cos: real -> real, sin: real -> real, a: real): Vec4 {
    Vec4(Radius * cos(a), -0.5, Radius * sin(a), 1.0)
  }

  /** The angle at which slice i starts. */
  function Angle(i: nat): real {
    Theta * (i as real)
  }

  /** The six vertices slice i appends: (a, b, c) then (a raised by the height, c, b). */
  function Slice(cos: real -> real, sin: real -> real, i: nat): seq<Vec4> {
    var b := RimPoint(cos, sin, Angle(i));
    var c := RimPoint(cos, sin, Angle(i) + Theta);
    [BaseCenter, b, c] + [BaseCenter.(y := BaseCenter.y + Height), c, b]
  }

  function Slices(cos: real -> real, sin: real -> real): nat -> seq<Vec4> {
    (i: nat) => Slice(cos, sin, i)
  }

  /** The vertices of the first n slices, in the order drawCone writes them. */
  function ConeVertices(cos: real -> real, sin: real -> real, n: nat): seq<Vec4> {
    Concat(Slices(cos, sin), n)
  }

  /**
   * drawCone: allocates 3 * 50 * 2 vertices and writes six per slice through
   * the global counter, which therefore has to start at zero.
   */
  method DrawCone(m: Mesh, cos: real -> real, sin: real -> real)
    requires m.Valid() && m.numVertices == 0
    modifies m
    ensures m.Valid() && fresh(m.vertices)
    ensures m.vertices.Length == 3 * NumCircTriangles * 2 == m.numVertices
    ensures m.Vertices() == ConeVertices(cos, sin, NumCircTriangles)
    ensures m.colors == old(m.colors) && m.numColors == old(m.numColors)
    ensures m.texCoords == old(m.texCoords) && m.numTexCoords == old(m.numTexCoords)
  {
    m.vertices := new Vec4[3 * NumCircTriangles * 2];
    var i := 0;
    while i < NumCircTriangles
      invariant 0 <= i <= NumCircTriangles
      invariant m.Valid() && fresh(m.vertices) && m.vertices.Length == 3 * NumCircTriangles * 2
      invariant m.numVertices == 6 * i
      invariant m.colors == old(m.colors) && m.numColors == old(m.numColors)
      invariant m.texCoords == old(m.texCoords) && m.numTexCoords == old(m.numTexCoords)
      invariant m.Vertices() == ConeVertices(cos, sin, i)
    {
      EmitSlice(m, cos, sin, i);
      ConcatStep(Slices(cos, sin), i);
      i := i + 1;
    }
  }

  /** One iteration of drawCone's loop: the base triangle, then the reversed side triangle. */
  method EmitSlice(m: Mesh, cos: real -> real, sin: real -> real, i: nat)
    requires m.Valid() && m.numVertices + 6 <= m.vertices.Length
    modifies m, m.vertices
    ensures m.Valid() && m.Vertices() == old(m.Vertices()) + Slice(cos, sin, i)
    ensures m.vertices == old(m.vertices) && m.numVertices == old(m.numVertices) + 6
    ensures m.colors == old(m.colors) && m.numColors == old(m.numColors)
    ensures m.texCoords == old(m.texCoords) && m.numTexCoords == old(m.numTexCoords)
  {
    var a := BaseCenter;
    var b := RimPoint(cos, sin, Angle(i));
    var c := RimPoint(cos, sin, Angle(i) + Theta);
    m.PushTriangle(a, b, c);
    var apex := a.(y := a.y + Height);
    m.PushTriangle(apex, c, b);
    AppendAssoc(old(m.Vertices()), [a, b, c], [apex, c, b]);
  }

  // ---------------------------------------------------------------------------
  // Properties of the cone

  /** drawCone fills its allocation exactly: 6 vertices per slice, 300 in all. */
  lemma VertexCount(cos: real -> real, sin: real -> real)
    ensures |ConeVertices(cos, sin, NumCircTriangles)| == 3 * NumCircTriangles * 2 == 300
  {
    ConcatLength(Slices(cos, sin), NumCircTriangles, 6);
  }

  /**
   * Triangle 2i is the base triangle (centre, b, c) of slice i and triangle
   * 2i + 1 its side triangle (apex, c, b): the same rim points in reverse
   * order, with the apex at the origin.
   */
  lemma SliceTriangles(cos: real -> real, sin: real -> real, n: nat, i: nat)
    requires i < n
    ensures var v := ConeVertices(cos, sin, n);
      && 6 * i + 5 < |v|
      && v[6 * i] == BaseCenter
      && v[6 * i + 1] == RimPoint(cos, sin, Angle(i))
      && v[6 * i + 2] == RimPoint(cos, sin, Angle(i) + Theta)
      && v[6 * i + 3] == Vec4(0.0, 0.0, 0.0, 1.0)
      && v[6 * i + 4] == v[6 * i + 2]
      && v[6 * i + 5] == v[6 * i + 1]
  {
    var v := ConeVertices(cos, sin, n);
    ConcatPiece(Slices(cos, sin), n, 6, i);
    var s := v[6 * i .. 6 * i + 6];
    assert s == Slice(cos, sin, i);
    assert v[6 * i] == s[0] && v[6 * i + 1] == s[1] && v[6 * i + 2] == s[2];
    assert v[6 * i + 3] == s[3] && v[6 * i + 4] == s[4] && v[6 * i + 5] == s[5];
  }

  /** Every vertex is a point (w = 1); all but the apexes lie on y = -0.5. */
  lemma AllPoints(cos: real -> real, sin: real -> real, n: nat, k: nat)
    requires k < 6 * n
    ensures |ConeVertices(cos, sin, n)| == 6 * n
    ensures ConeVertices(cos, sin, n)[k].w == 1.0
    ensures k % 6 != 3 <==> ConeVertices(cos, sin, n)[k].y == -0.5
  {
    ConcatLength(Slices(cos, sin), n, 6);
    var i, p := k / 6, k % 6;
    assert k == 6 * i + p;
    SliceTriangles(cos, sin, n, i);
  }

  /** The rim points lie on the circle of radius 0.25 around the base centre. */
  lemma RimOnCircle(cos: real -> real, sin: real -> real, a: real)
    requires OnUnitCircle(cos, sin)
    ensures var p := RimPoint(cos, sin, a);
      (p.x - BaseCenter.x) * (p.x - BaseCenter.x) + (p.z - BaseCenter.z) * (p.z - BaseCenter.z) == Radius * Radius
  {
    var p := RimPoint(cos, sin, a);
    assert p.x * p.x == Radius * Radius * (cos(a) * cos(a));
    assert p.z * p.z == Radius * Radius * (sin(a) * sin(a));
  }

  // ---------------------------------------------------------------------------
  // idle

  /** The per-frame increment of the rotation angle. */
  const Step: real := 0.001

  /**
   * The new value of `rads` after one idle call: the angle grows by 0.001
   * and falls back to 0 once it has passed 2π, so it never exceeds 2π.
   */
  function NextRads(rads: real): (r: real)
    ensures r <= 2.0 * Pi
    ensures 0.0 <= rads ==> 0.0 <= r
    ensures r == 0.0 || r == rads + Step
    ensures r < rads <==> rads + Step > 2.0 * Pi && rads > 0.0
  {
    if rads + Step > 2.0 * Pi then 0.0 else rads + Step
  }

  /** rads after k idle calls starting from r. */
  function IdleRads(k: nat, r: real): real {
    if k == 0 then r else NextRads(IdleRads(k - 1, r))
  }

  /** From 0, the first k calls only add: rads is 0.001 * k while that stays within 2π. */
  lemma {:induction false} IdleAccumulates(k: nat)
    requires Step * (k as real) <= 2.0 * Pi
    ensures IdleRads(k, 0.0) == Step * (k as real)
  {
    if k > 0 {
      IdleAccumulates(k - 1);
    }
  }

  /** The angle starts at 0 and stays in [0, 2π] for ever. */
  lemma {:induction false} IdleInRange(k: nat)
    ensures 0.0 <= IdleRads(k, 0.0) <= 2.0 * Pi
  {
    if k > 0 {
      IdleInRange(k - 1);
    }
  }

  /** The global `rads` that idle advances; `ctm` is a matrix product of it and is not modelled. */
  class Spin {
    var rads: real

    constructor ()
      ensures rads == 0.0
    {
      rads := 0.0;
    }

    method Idle()
      modifies this
      ensures rads == NextRads(old(rads))
    {
      rads := rads + Step;
      if rads > 2.0 * Pi {
        rads := 0.0;
      }
    }
  }
}
