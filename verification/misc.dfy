/**
 * misc/misc.c: circleTest, a disc of 100 triangles in the plane z = 0,
 * each with one green and two blue vertices.
 */
module Misc {
  import opened Vec
  import opened Mesh

  const NumTriangles: nat := 100
  const Radius: real := 0.5
  /** The centre angle of each triangle. */
  const Theta: real := 2.0 * Pi / 100.0

  const Origin: Vec4 := Vec4(0.0, 0.0, 0.0, 1.0)
  const Green: Vec4 := Vec4(0.0, 1.0, 0.0, 1.0)
  const Blue: Vec4 := Vec4(0.0, 0.3, 1.0, 1.0)

  /** The point of the circle at angle a. */
  function RimPoint(cos: real -> real, sin: real -> real, a: real): Vec4 {
    Vec4(Radius * cos(a), Radius * sin(a), 0.0, 1.0)
  }

  /** The angle at which triangle i starts. */
  function Angle(i: nat): real {
    Theta * (i as real)
  }

  /** Triangle i: the centre and two consecutive points of the circle, counter-clockwise. */
  function Wedge(cos: real -> real, sin: real -> real, i: nat): seq<Vec4> {
    [Origin, RimPoint(cos, sin, Angle(i)), RimPoint(cos, sin, Angle(i) + Theta)]
  }

  function Wedges(cos: real -> real, sin: real -> real): nat -> seq<Vec4> {
    (i: nat) => Wedge(cos, sin, i)
  }

  /** The vertices of the first n triangles. */
  function CircleVertices(cos: real -> real, sin: real -> real, n: nat): seq<Vec4> {
    Concat(Wedges(cos, sin), n)
  }

  /** The colours of every triangle. */
  function WedgeColors(): nat -> seq<Vec4> {
    (i: nat) => [Green, Blue, Blue]
  }

  /** The colours of the first n triangles. */
  function CircleColors(n: nat): seq<Vec4> {
    Concat(WedgeColors(), n)
  }

  /**
   * circleTest: allocates 3 * 100 vertices and colours and writes one
   * triangle of each per iteration.  Both counters have to start at zero.
   */
  method CircleTest(m: Mesh, cos: real -> real, sin: real -> real)
    requires m.Valid() && m.numVertices == 0 && m.numColors == 0
    modifies m
    ensures m.Valid() && fresh(m.vertices) && fresh(m.colors)
    ensures m.vertices.Length == 3 * NumTriangles == m.numVertices
    ensures m.colors.Length == 3 * NumTriangles == m.numColors
    ensures m.Vertices() == CircleVertices(cos, sin, NumTriangles)
    ensures m.Colors() == CircleColors(NumTriangles)
    ensures m.texCoords == old(m.texCoords) && m.numTexCoords == old(m.numTexCoords)
  {
    m.vertices := new Vec4[3 * NumTriangles];
    m.colors := new Vec4[3 * NumTriangles];
    var i := 0;
    while i < NumTriangles
      invariant 0 <= i <= NumTriangles
      invariant m.Valid() && fresh(m.vertices) && fresh(m.colors) && m.vertices != m.colors
      invariant m.vertices.Length == 3 * NumTriangles && m.colors.Length == 3 * NumTriangles
      invariant m.numVertices == m.numColors == 3 * i
      invariant m.texCoords == old(m.texCoords) && m.numTexCoords == old(m.numTexCoords)
      invariant m.Vertices() == CircleVertices(cos, sin, i)
      invariant m.Colors() == CircleColors(i)
    {
      EmitWedge(m, cos, sin, i);
      i := i + 1;
    }
  }

  /** One pass of circleTest's loop: triangle i and its colours. */
  method EmitWedge(m: Mesh, cos: real -> real, sin: real -> real, i: nat)
    requires m.Valid() && m.vertices != m.colors
    requires m.numVertices + 3 <= m.vertices.Length && m.numColors + 3 <= m.colors.Length
    requires m.Vertices() == CircleVertices(cos, sin, i) && m.Colors() == CircleColors(i)
    modifies m, m.vertices, m.colors
    ensures m.Valid() && m.vertices == old(m.vertices) && m.colors == old(m.colors)
    ensures m.numVertices == old(m.numVertices) + 3 && m.numColors == old(m.numColors) + 3
    ensures m.texCoords == old(m.texCoords) && m.numTexCoords == old(m.numTexCoords)
    ensures m.Vertices() == CircleVertices(cos, sin, i + 1) && m.Colors() == CircleColors(i + 1)
  {
    var b := RimPoint(cos, sin, Angle(i));
    var c := RimPoint(cos, sin, Angle(i) + Theta);
    m.PushTriangle(Origin, b, c);
    ghost var vs := m.Vertices();
    m.PushColorTriangle(Green, Blue, Blue);
    assert m.Vertices() == vs;
    ConcatStep(Wedges(cos, sin), i);
    ConcatStep(WedgeColors(), i);
  }

  // ---------------------------------------------------------------------------
  // Properties of the circle

  /** circleTest fills both allocations exactly: 300 vertices and 300 colours. */
  lemma Counts(cos: real -> real, sin: real -> real)
    ensures |CircleVertices(cos, sin, NumTriangles)| == 3 * NumTriangles == 300
    ensures |CircleColors(NumTriangles)| == 3 * NumTriangles
  {
    ConcatLength(Wedges(cos, sin), NumTriangles, 3);
    ConcatLength(WedgeColors(), NumTriangles, 3);
  }

  /**
   * Triangle i has the origin as its first vertex and two points of the
   * circle, coloured green, blue, blue.
   */
  lemma TriangleAt(cos: real -> real, sin: real -> real, n: nat, i: nat)
    requires i < n
    ensures var v := CircleVertices(cos, sin, n);
      && 3 * i + 2 < |v|
      && v[3 * i] == Origin
      && v[3 * i + 1] == RimPoint(cos, sin, Angle(i))
      && v[3 * i + 2] == RimPoint(cos, sin, Angle(i) + Theta)
    ensures var cs := CircleColors(n);
      && |cs| == |CircleVertices(cos, sin, n)|
      && cs[3 * i] == Green && cs[3 * i + 1] == Blue && cs[3 * i + 2] == Blue
  {
    var v := CircleVertices(cos, sin, n);
    ConcatPiece(Wedges(cos, sin), n, 3, i);
    var s := v[3 * i .. 3 * i + 3];
    assert s == Wedge(cos, sin, i);
    assert v[3 * i] == s[0] && v[3 * i + 1] == s[1] && v[3 * i + 2] == s[2];
    var cs := CircleColors(n);
    ConcatPiece(WedgeColors(), n, 3, i);
    var t := cs[3 * i .. 3 * i + 3];
    assert t == [Green, Blue, Blue];
    assert cs[3 * i] == t[0] && cs[3 * i + 1] == t[1] && cs[3 * i + 2] == t[2];
  }

  /** Every vertex is a point of the plane z = 0, and every colour is opaque. */
  lemma FlatPoints(cos: real -> real, sin: real -> real, n: nat, k: nat)
    requires k < 3 * n
    ensures |CircleVertices(cos, sin, n)| == 3 * n
    ensures CircleVertices(cos, sin, n)[k].z == 0.0 && CircleVertices(cos, sin, n)[k].w == 1.0
    ensures |CircleColors(n)| == 3 * n && CircleColors(n)[k].w == 1.0
  {
    ConcatLength(Wedges(cos, sin), n, 3);
    var i, p := k / 3, k % 3;
    assert k == 3 * i + p;
    TriangleAt(cos, sin, n, i);
  }

  /** The outer points lie on the circle of radius 0.5 around the origin. */
  lemma RimOnCircle(cos: real -> real, sin: real -> real, a: real)
    requires OnUnitCircle(cos, sin)
    ensures var p := RimPoint(cos, sin, a);
      p.x * p.x + p.y * p.y == Radius * Radius
  {
    var p := RimPoint(cos, sin, a);
    assert p.x * p.x == Radius * Radius * (cos(a) * cos(a));
    assert p.y * p.y == Radius * Radius * (sin(a) * sin(a));
  }
}
