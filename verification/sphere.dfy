/**
 * unitSphere, shared word for word by proj2/proj2.c and proj3/proj3.c: a
 * sphere of 40 gores (segments) of 40 bands (rings) each, swept from a
 * reference meridian that runs from the north pole (0, 1, 0) to the south
 * pole.
 *
 * The rotations z_rotate(-π/40) and y_rotate(2π/40) are matrix products of
 * the library; they are the parameters `zr` and `yr`.  The layout of the
 * vertex buffer is stated over an arbitrary family of meridians `M`, where
 * M(i, j) is point j of meridian i; `Globe` is the family unitSphere
 * computes.
 */
module Sphere {
  import opened Vec
  import opened Mesh

  const NumSegments: nat := 40
  const NumRings: nat := 40
  /** numRings * 6 * numSegments. */
  const NumVerts: nat := 9600

  /** The north pole, where the reference meridian starts. */
  const North: Vec4 := Vec4(0.0, 1.0, 0.0, 1.0)

  /**
   * The meridians unitSphere computes: point j of the reference meridian is
   * the pole turned j times by `zr` (z_rotate(-π/40)); meridian i is that
   * turned i times by `yr` (y_rotate(2π/40)).
   */
  function Globe(zr: Vec4 -> Vec4, yr: Vec4 -> Vec4): Rings {
    (i: nat, j: nat) => Iter(yr, i, Iter(zr, j, North))
  }

  /**
   * Band j of gore i, between meridian i (ref1) and meridian i + 1 (ref2):
   * one triangle at the top cap (j = 0), one at the bottom cap
   * (j = NumRings), two otherwise.
   */
  function Band(M: Rings, i: nat, j: nat): seq<Vec4> {
    if j == 0 then [M(i, 0), M(i, 1), M(i + 1, 1)]
    else if j == NumRings then [M(i, j - 1), M(i, j), M(i + 1, j - 1)]
    else [M(i, j), M(i, j + 1), M(i + 1, j)] + [M(i, j + 1), M(i + 1, j + 1), M(i + 1, j)]
  }

  function Bands(M: Rings, i: nat): nat -> seq<Vec4> {
    (j: nat) => Band(M, i, j)
  }

  /** Gore i: bands 0 .. NumRings. */
  function Gore(M: Rings, i: nat): seq<Vec4> {
    Concat(Bands(M, i), NumRings + 1)
  }

  function Gores(M: Rings): nat -> seq<Vec4> {
    (i: nat) => Gore(M, i)
  }

  /** Everything unitSphere writes. */
  function SphereVertices(M: Rings): seq<Vec4> {
    Concat(Gores(M), NumSegments)
  }

  /** The first k bands of a gore hold 6k - 3 vertices (the top cap has only 3). */
  lemma {:induction false} BandsLength(M: Rings, i: nat, k: nat)
    requires 1 <= k <= NumRings
    ensures |Concat(Bands(M, i), k)| == 6 * k - 3
  {
    ConcatStep(Bands(M, i), k - 1);
    if k > 1 {
      BandsLength(M, i, k - 1);
    }
  }

  /** Each gore holds 6 * NumRings vertices. */
  lemma GoreLength(M: Rings, i: nat)
    ensures |Gore(M, i)| == 6 * NumRings
  {
    BandsLength(M, i, NumRings);
    ConcatStep(Bands(M, i), NumRings);
  }

  /** unitSphere writes exactly the numRings * 6 * numSegments vertices it allocates. */
  lemma SphereVertexCount(M: Rings)
    ensures |SphereVertices(M)| == NumVerts == NumRings * 6 * NumSegments
  {
    forall i: nat | i < NumSegments
      ensures |Gores(M)(i)| == 240
    {
      GoreLength(M, i);
    }
    ConcatLength(Gores(M), NumSegments, 240);
  }

  /**
   * The bottom cap repeats the first triangle of the band above it: the
   * last band with two triangles already covers the strip ending at the
   * south pole.
   */
  lemma BottomCapRepeats(M: Rings, i: nat)
    ensures Band(M, i, NumRings) == Band(M, i, NumRings - 1)[..3]
  {
  }

  /** proj3.c lines 99-105: the reference meridian, the pole turned j times by zr. */
  method MakeMeridian(zr: Vec4 -> Vec4, ghost yr: Vec4 -> Vec4) returns (ref1: array<Vec4>)
    ensures fresh(ref1) && ref1[..] == Ring(Globe(zr, yr), 0, NumRings + 1)
  {
    ref1 := new Vec4[NumRings + 1];
    ref1[0] := Vec4(0.0, 1.0, 0.0, 1.0);
    var i := 1;
    while i <= NumRings
      invariant 1 <= i <= NumRings + 1
      invariant forall j {:trigger ref1[j]} :: 0 <= j < i ==> ref1[j] == Iter(zr, j, North)
    {
      assert Iter(zr, i, North) == zr(ref1[i - 1]);
      ref1[i] := zr(ref1[i - 1]);
      i := i + 1;
    }
    MeridianIsRing(zr, yr, ref1[..]);
  }

  /** A sequence holding the pole turned j times by zr at each j is meridian 0 of the globe. */
  lemma MeridianIsRing(zr: Vec4 -> Vec4, yr: Vec4 -> Vec4, s: seq<Vec4>)
    requires |s| == NumRings + 1 && forall j :: 0 <= j < |s| ==> s[j] == Iter(zr, j, North)
    ensures s == Ring(Globe(zr, yr), 0, NumRings + 1)
  {
    forall j | 0 <= j < NumRings + 1
      ensures s[j] == Globe(zr, yr)(0, j)
    {
      assert Globe(zr, yr)(0, j) == Iter(zr, j, North);
    }
  }

  /** proj3.c lines 108-113: ref2 is ref1 turned once by yr. */
  method TurnMeridian(ref1: array<Vec4>, yr: Vec4 -> Vec4) returns (ref2: array<Vec4>)
    ensures fresh(ref2) && ref2[..] == MapVec(yr, ref1[..])
  {
    ref2 := new Vec4[ref1.Length];
    var i := 0;
    while i < ref1.Length
      invariant 0 <= i <= ref1.Length
      invariant forall j :: 0 <= j < i ==> ref2[j] == yr(ref1[j])
    {
      ref2[i] := yr(ref1[i]);
      i := i + 1;
    }
  }

  /** proj3.c lines 147-151: ref1 turned by yr, then ref2 set to the new ref1 turned by yr. */
  method TurnBoth(ref1: array<Vec4>, ref2: array<Vec4>, yr: Vec4 -> Vec4)
    requires ref1 != ref2 && ref1.Length == ref2.Length
    modifies ref1, ref2
    ensures ref1[..] == MapVec(yr, old(ref1[..]))
    ensures ref2[..] == MapVec(yr, ref1[..])
  {
    var j := 0;
    while j < ref1.Length
      invariant 0 <= j <= ref1.Length
      invariant forall k :: 0 <= k < j ==> ref1[k] == yr(old(ref1[k])) && ref2[k] == yr(ref1[k])
      invariant forall k :: j <= k < ref1.Length ==> ref1[k] == old(ref1[k])
    {
      ref1[j] := yr(ref1[j]);
      ref2[j] := yr(ref1[j]);
      j := j + 1;
    }
  }

  /** One pass of the j loop: band j of the gore between ref1 and ref2. */
  method EmitBand(m: Mesh, ref1: array<Vec4>, ref2: array<Vec4>, j: nat, ghost M: Rings, ghost i: nat)
    requires j <= NumRings && m.Valid() && m.numVertices + |Band(M, i, j)| <= m.vertices.Length
    requires ref1 != m.vertices && ref2 != m.vertices
    requires ref1[..] == Ring(M, i, NumRings + 1) && ref2[..] == Ring(M, i + 1, NumRings + 1)
    modifies m, m.vertices
    ensures m.Valid() && m.Vertices() == old(m.Vertices()) + Band(M, i, j)
    ensures m.vertices == old(m.vertices) && m.numVertices == old(m.numVertices) + |Band(M, i, j)|
    ensures m.colors == old(m.colors) && m.numColors == old(m.numColors)
    ensures m.texCoords == old(m.texCoords) && m.numTexCoords == old(m.numTexCoords)
  {
    if j == 0 {
      m.PushTriangle(ref1[0], ref1[1], ref2[1]);
    } else if j == NumRings {
      m.PushTriangle(ref1[j - 1], ref1[j], ref2[j - 1]);
    } else {
      ghost var vs := m.Vertices();
      assert Band(M, i, j) == [ref1[j], ref1[j + 1], ref2[j]] + [ref1[j + 1], ref2[j + 1], ref2[j]];
      m.PushTriangle(ref1[j], ref1[j + 1], ref2[j]);
      m.PushTriangle(ref1[j + 1], ref2[j + 1], ref2[j]);
      AppendAssoc(vs, [ref1[j], ref1[j + 1], ref2[j]], [ref1[j + 1], ref2[j + 1], ref2[j]]);
    }
  }

  /** Band j appended to the bands before it: the gore so far grows by one band. */
  method EmitNextBand(m: Mesh, ref1: array<Vec4>, ref2: array<Vec4>, j: nat, ghost M: Rings, ghost i: nat, ghost before: seq<Vec4>)
    requires j <= NumRings && m.Valid() && m.numVertices + 6 * NumRings <= m.vertices.Length + |Concat(Bands(M, i), j)|
    requires ref1 != m.vertices && ref2 != m.vertices
    requires ref1[..] == Ring(M, i, NumRings + 1) && ref2[..] == Ring(M, i + 1, NumRings + 1)
    requires m.Vertices() == before + Concat(Bands(M, i), j)
    modifies m, m.vertices
    ensures m.Valid() && m.Vertices() == before + Concat(Bands(M, i), j + 1)
    ensures m.vertices == old(m.vertices) && m.numVertices == old(m.numVertices) + |Band(M, i, j)|
    ensures m.colors == old(m.colors) && m.numColors == old(m.numColors)
    ensures m.texCoords == old(m.texCoords) && m.numTexCoords == old(m.numTexCoords)
  {
    ConcatStep(Bands(M, i), j);
    if j < NumRings {
      BandsLength(M, i, j + 1);
    } else {
      GoreLength(M, i);
    }
    EmitBand(m, ref1, ref2, j, M, i);
    AppendAssoc(before, Concat(Bands(M, i), j), Band(M, i, j));
  }

  /** proj3.c lines 118-144: all bands of gore i. */
  method EmitGore(m: Mesh, ref1: array<Vec4>, ref2: array<Vec4>, ghost M: Rings, ghost i: nat)
    requires m.Valid() && m.numVertices + 6 * NumRings <= m.vertices.Length
    requires ref1 != m.vertices && ref2 != m.vertices
    requires ref1[..] == Ring(M, i, NumRings + 1) && ref2[..] == Ring(M, i + 1, NumRings + 1)
    modifies m, m.vertices
    ensures m.Valid() && m.Vertices() == old(m.Vertices()) + Gore(M, i)
    ensures m.vertices == old(m.vertices) && m.numVertices == old(m.numVertices) + 6 * NumRings
    ensures m.colors == old(m.colors) && m.numColors == old(m.numColors)
    ensures m.texCoords == old(m.texCoords) && m.numTexCoords == old(m.numTexCoords)
  {
    ghost var before := m.Vertices();
    var j := 0;
    while j <= NumRings
      invariant 0 <= j <= NumRings + 1
      invariant m.Valid() && m.vertices == old(m.vertices)
      invariant m.colors == old(m.colors) && m.numColors == old(m.numColors)
      invariant m.texCoords == old(m.texCoords) && m.numTexCoords == old(m.numTexCoords)
      invariant m.Vertices() == before + Concat(Bands(M, i), j)
    {
      EmitNextBand(m, ref1, ref2, j, M, i, before);
      j := j + 1;
    }
    GoreLength(M, i);
  }

  /** One pass of the segment loop: gore i, then both meridians turned on. */
  method GoreStep(m: Mesh, ref1: array<Vec4>, ref2: array<Vec4>, yr: Vec4 -> Vec4, ghost M: Rings, ghost i: nat)
    requires m.Valid() && m.numVertices + 6 * NumRings <= m.vertices.Length
    requires ref1 != m.vertices && ref2 != m.vertices && ref1 != ref2
    requires Advances(M, yr)
    requires ref1[..] == Ring(M, i, NumRings + 1) && ref2[..] == Ring(M, i + 1, NumRings + 1)
    modifies m, m.vertices, ref1, ref2
    ensures m.Valid() && m.Vertices() == old(m.Vertices()) + Gore(M, i)
    ensures m.vertices == old(m.vertices) && m.numVertices == old(m.numVertices) + 6 * NumRings
    ensures m.colors == old(m.colors) && m.numColors == old(m.numColors)
    ensures m.texCoords == old(m.texCoords) && m.numTexCoords == old(m.numTexCoords)
    ensures ref1[..] == Ring(M, i + 1, NumRings + 1) && ref2[..] == Ring(M, i + 2, NumRings + 1)
  {
    EmitGore(m, ref1, ref2, M, i);
    ghost var vs := m.Vertices();
    TurnBoth(ref1, ref2, yr);
    assert m.Vertices() == vs;
    AdvanceRingSpec(M, yr, i, NumRings + 1);
    AdvanceRingSpec(M, yr, i + 1, NumRings + 1);
  }

  /** The segment loop: NumSegments gores. */
  method EmitSphere(m: Mesh, ref1: array<Vec4>, ref2: array<Vec4>, yr: Vec4 -> Vec4, ghost M: Rings)
    requires m.Valid() && m.numVertices == 0 && m.vertices.Length == NumVerts
    requires ref1 != m.vertices && ref2 != m.vertices && ref1 != ref2
    requires Advances(M, yr)
    requires ref1[..] == Ring(M, 0, NumRings + 1) && ref2[..] == Ring(M, 1, NumRings + 1)
    modifies m, m.vertices, ref1, ref2
    ensures m.Valid() && m.vertices == old(m.vertices) && m.numVertices == NumVerts
    ensures m.Vertices() == SphereVertices(M)
    ensures m.colors == old(m.colors) && m.numColors == old(m.numColors)
    ensures m.texCoords == old(m.texCoords) && m.numTexCoords == old(m.numTexCoords)
  {
    var i := 0;
    assert m.Vertices() == [];
    while i < NumSegments
      invariant 0 <= i <= NumSegments
      invariant m.Valid() && m.vertices == old(m.vertices) && m.numVertices == 240 * i
      invariant m.colors == old(m.colors) && m.numColors == old(m.numColors)
      invariant m.texCoords == old(m.texCoords) && m.numTexCoords == old(m.numTexCoords)
      invariant ref1[..] == Ring(M, i, NumRings + 1) && ref2[..] == Ring(M, i + 1, NumRings + 1)
      invariant m.Vertices() == Concat(Gores(M), i)
    {
      GoreStep(m, ref1, ref2, yr, M, i);
      ConcatStep(Gores(M), i);
      i := i + 1;
    }
  }

  /** Turning every meridian point by yr gives the next meridian. */
  lemma GlobeAdvances(zr: Vec4 -> Vec4, yr: Vec4 -> Vec4)
    ensures Advances(Globe(zr, yr), yr)
  {
    var M := Globe(zr, yr);
    forall k: nat, j: nat
      ensures M(k + 1, j) == yr(M(k, j))
    {
      assert M(k + 1, j) == Iter(yr, k + 1, Iter(zr, j, North));
    }
  }

  /**
   * unitSphere: allocates numRings * 6 * numSegments vertices and fills them
   * through the global counter, which therefore has to start at zero.
   */
  method UnitSphere(m: Mesh, zr: Vec4 -> Vec4, yr: Vec4 -> Vec4)
    requires m.Valid() && m.numVertices == 0
    modifies m
    ensures m.Valid() && fresh(m.vertices)
    ensures m.vertices.Length == NumVerts == m.numVertices
    ensures m.Vertices() == SphereVertices(Globe(zr, yr))
    ensures m.colors == old(m.colors) && m.numColors == old(m.numColors)
    ensures m.texCoords == old(m.texCoords) && m.numTexCoords == old(m.numTexCoords)
  {
    ghost var M := Globe(zr, yr);
    m.vertices := new Vec4[NumVerts];
    var ref1 := MakeMeridian(zr, yr);
    var ref2 := TurnMeridian(ref1, yr);
    GlobeAdvances(zr, yr);
    AdvanceRingSpec(M, yr, 0, NumRings + 1);
    EmitSphere(m, ref1, ref2, yr, M);
  }
}
