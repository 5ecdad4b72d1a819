/**
 * lab3/lab3.c: a cone of 50 slices with radius 0.5 and height 1, its base on
 * the plane y = -0.5.  Every slice contributes a base triangle and a side
 * triangle that share the two rim points in the same order.
 */
module Lab3 {
  import opened Vec
  import opened Mesh

  const NumCircTriangles: nat := 50
  const Radius: real := 0.5
  const Height: real := 1.0
  /** The angle of one slice. */
  const Theta: real := 2.0 * Pi / 50.0

  /** Centre of the base circle. */
  const BaseCenter: Vec4 := Vec4(0.0, -0.5, 0.0, 1.0)

  /** The point of the base circle at angle a. */
  function RimPoint(cos: real -> real, sin: real -> real, a: real): Vec4 {
    Vec4(Radius * cos(a), -0.5, Radius * sin(a), 1.0)
  }

  /** The angle at which slice i starts. */
  function Angle(i: nat): real {
    Theta * (i as real)
  }

  /** The six vertices slice i appends: (a, b, c) then (a raised by the height, b, c). */
  function Slice(cos: real -> real, sin: real -> real, i: nat): seq<Vec4> {
    var b := RimPoint(cos, sin, Angle(i));
    var c := RimPoint(cos, sin, Angle(i) + Theta);
    [BaseCenter, b, c] + [BaseCenter.(y := BaseCenter.y + Height), b, c]
  }

  function Slices(cos: real -> real, sin: real -> real): nat -> seq<Vec4> {
    (i: nat) => Slice(cos, sin, i)
  }

  /** The vertices of the first n slices, in the order drawCone writes them. */
  function ConeVertices(cos: real -> real, sin: real -> real, n: nat): seq<Vec4> {
    Concat(Slices(cos, sin), n)
  }

  /**
   * drawCone: allocates 3 * 50 * 2 vertices and writes six per slice through
   * the global counter, which therefore has to start at zero.
   */
  method DrawCone(m: Mesh, cos: real -> real, sin: real -> real)
    requires m.Valid() && m.numVertices == 0
    modifies m
    ensures m.Valid() && fresh(m.vertices)
    ensures m.vertices.Length == 3 * NumCircTriangles * 2 == m.numVertices
    ensures m.Vertices() == ConeVertices(cos, sin, NumCircTriangles)
    ensures m.colors == old(m.colors) && m.numColors == old(m.numColors)
    ensures m.texCoords == old(m.texCoords) && m.numTexCoords == old(m.numTexCoords)
  {
    m.vertices := new Vec4[3 * NumCircTriangles * 2];
    var i := 0;
    while i < NumCircTriangles
      invariant 0 <= i <= NumCircTriangles
      invariant m.Valid() && fresh(m.vertices) && m.vertices.Length == 3 * NumCircTriangles * 2
      invariant m.numVertices == 6 * i
      invariant m.colors == old(m.colors) && m.numColors == old(m.numColors)
      invariant m.texCoords == old(m.texCoords) && m.numTexCoords == old(m.numTexCoords)
      invariant m.Vertices() == ConeVertices(cos, sin, i)
    {
      EmitSlice(m, cos, sin, i);
      ConcatStep(Slices(cos, sin), i);
      i := i + 1;
    }
  }

  /** One iteration of drawCone's loop: the base triangle, then the side triangle. */
  method EmitSlice(m: Mesh, cos: real -> real, sin: real -> real, i: nat)
    requires m.Valid() && m.numVertices + 6 <= m.vertices.Length
    modifies m, m.vertices
    ensures m.Valid() && m.Vertices() == old(m.Vertices()) + Slice(cos, sin, i)
    ensures m.vertices == old(m.vertices) && m.numVertices == old(m.numVertices) + 6
    ensures m.colors == old(m.colors) && m.numColors == old(m.numColors)
    ensures m.texCoords == old(m.texCoords) && m.numTexCoords == old(m.numTexCoords)
  {
    var a := BaseCenter;
    var b := RimPoint(cos, sin, Angle(i));
    var c := RimPoint(cos, sin, Angle(i) + Theta);
    m.PushTriangle(a, b, c);
    var apex := a.(y := a.y + Height);
    m.PushTriangle(apex, b, c);
    AppendAssoc(old(m.Vertices()), [a, b, c], [apex, b, c]);
  }

  // ---------------------------------------------------------------------------
  // Properties of the cone

  /** drawCone fills its allocation exactly: 6 vertices per slice, 300 in all. */
  lemma VertexCount(cos: real -> real, sin: real -> real)
    ensures |ConeVertices(cos, sin, NumCircTriangles)| == 3 * NumCircTriangles * 2 == 300
  {
    ConcatLength(Slices(cos, sin), NumCircTriangles, 6);
  }

  /**
   * Triangle 2i is the base triangle (centre, b, c) of slice i and triangle
   * 2i + 1 its side triangle (apex, b, c), with b and c in the same order.
   */
  lemma SliceTriangles(cos: real -> real, sin: real -> real, n: nat, i: nat)
    requires i < n
    ensures var v := ConeVertices(cos, sin, n);
      && 6 * i + 5 < |v|
      && v[6 * i] == BaseCenter
      && v[6 * i + 1] == RimPoint(cos, sin, Angle(i))
      && v[6 * i + 2] == RimPoint(cos, sin, Angle(i) + Theta)
      && v[6 * i + 3] == Vec4(0.0, 0.5, 0.0, 1.0)
      && v[6 * i + 4] == v[6 * i + 1]
      && v[6 * i + 5] == v[6 * i + 2]
  {
    var v := ConeVertices(cos, sin, n);
    ConcatPiece(Slices(cos, sin), n, 6, i);
    var s := v[6 * i .. 6 * i + 6];
    assert s == Slice(cos, sin, i);
    assert v[6 * i] == s[0] && v[6 * i + 1] == s[1] && v[6 * i + 2] == s[2];
    assert v[6 * i + 3] == s[3] && v[6 * i + 4] == s[4] && v[6 * i + 5] == s[5];
  }

  /** Every vertex is a point (w = 1); all but the apexes lie on y = -0.5. */
  lemma AllPoints(cos: real -> real, sin: real -> real, n: nat, k: nat)
    requires k < 6 * n
    ensures |ConeVertices(cos, sin, n)| == 6 * n
    ensures ConeVertices(cos, sin, n)[k].w == 1.0
    ensures k % 6 != 3 <==> ConeVertices(cos, sin, n)[k].y == -0.5
  {
    ConcatLength(Slices(cos, sin), n, 6);
    var i, p := k / 6, k % 6;
    assert k == 6 * i + p;
    SliceTriangles(cos, sin, n, i);
  }

  /** The rim points lie on the circle of radius 0.5 around the base centre. */
  lemma RimOnCircle(cos: real -> real, sin: real -> real, a: real)
    requires OnUnitCircle(cos, sin)
    ensures var p := RimPoint(cos, sin, a);
      (p.x - BaseCenter.x) * (p.x - BaseCenter.x) + (p.z - BaseCenter.z) * (p.z - BaseCenter.z) == Radius * Radius
  {
    var p := RimPoint(cos, sin, a);
    assert p.x * p.x == Radius * Radius * (cos(a) * cos(a));
    assert p.z * p.z == Radius * Radius * (sin(a) * sin(a));
  }

  /**
   * Consecutive slices share a rim point (c of slice i is b of slice i + 1),
   * and the last slice closes the circle when cos and sin repeat after 2π.
   */
  lemma RimCloses(cos: real -> real, sin: real -> real, i: nat)
    requires i < NumCircTriangles
    ensures i + 1 < NumCircTriangles ==> Slice(cos, sin, i)[2] == Slice(cos, sin, i + 1)[1]
    ensures cos(2.0 * Pi) == cos(0.0) && sin(2.0 * Pi) == sin(0.0) && i + 1 == NumCircTriangles
        ==> Slice(cos, sin, i)[2] == Slice(cos, sin, 0)[1]
  {
    assert Angle(i) + Theta == Angle(i + 1);
    assert Angle(NumCircTriangles - 1) + Theta == 2.0 * Pi;
  }
}
