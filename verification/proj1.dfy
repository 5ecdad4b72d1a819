/**
 * proj1/proj1.c: myObject, a three-coil spring swept from a reference
 * circle, with an end cap at each end; and the idle/keyboard state that
 * spins it.
 *
 * The rotation-and-lift matrix `tr` applied to the reference circles and
 * the final translate-and-scale are matrix products of the library; they
 * are the parameters `step` and `fit`.  The layout of the vertex buffer is
 * stated over an arbitrary family of rings `R`, where R(k, j) is point j of
 * the reference circle after k steps; `Spring` is the family myObject
 * computes.
 */
module Proj1 {
  import opened Vec
  import opened Mesh

  const NumSegments: nat := 36
  const NumCircPoints: nat := 36
  const NumCoils: nat := 3
  /** Segments in the whole spring, NumSegments * NumCoils. */
  const ShellSegments: nat := 108
  /**
   * Vertices in the shell plus vertices in the two end caps,
   * NumSegments * NumCircPoints * NumCoils * 6 + 2 * 3 * NumCircPoints
   * (VertexCount).
   */
  const NumVerts: nat := 23544

  /** The angle between two points of the reference circle. */
  const Theta: real := 2.0 * Pi / 36.0

  /** Centre of the first end cap, and of the second one after 108 lifts of 0.1. */
  const FirstCenter: Vec4 := Vec4(2.0, 0.0, 0.0, 1.0)
  const SecondCenter: Vec4 := Vec4(2.0, 10.8, 0.0, 1.0)

  /** Point i of the unit reference circle, moved 2 along x. */
  function RefPoint(cos: real -> real, sin: real -> real, i: nat): Vec4 {
    Vec4(cos(Theta * (i as real)) + 2.0, sin(Theta * (i as real)), 0.0, 1.0)
  }

  /** The rings myObject computes: the reference circle moved k times by `step`. */
  function Spring(cos: real -> real, sin: real -> real, step: Vec4 -> Vec4): Rings {
    (k: nat, i: nat) => Iter(step, k, RefPoint(cos, sin, i))
  }

  /** The neighbour of ring index i, wrapping round to 0. */
  function Next(i: nat): (j: nat)
    ensures j < NumCircPoints
    ensures i < NumCircPoints ==> (j == 0 <==> i == NumCircPoints - 1)
    ensures i + 1 < NumCircPoints ==> j == i + 1
  {
    (i + 1) % NumCircPoints
  }

  // ---------------------------------------------------------------------------
  // The vertex sequence myObject writes

  /** First cap triangle i: (centre, point i, point i + 1) of ring 0. */
  function FirstCapTriangle(R: Rings): nat -> seq<Vec4> {
    (i: nat) => [FirstCenter, R(0, i), R(0, Next(i))]
  }

  /**
   * Shell quad i of segment h, between ring h (trailing, refCirc2) and ring
   * h + 1 (leading, refCirc1), as two triangles.
   */
  function Quad(R: Rings, h: nat, i: nat): seq<Vec4> {
    [R(h, i), R(h + 1, i), R(h, Next(i))] + [R(h + 1, i), R(h + 1, Next(i)), R(h, Next(i))]
  }

  function Quads(R: Rings, h: nat): nat -> seq<Vec4> {
    (i: nat) => Quad(R, h, i)
  }

  /** Segment h of the shell: NumCircPoints quads. */
  function Segment(R: Rings, h: nat): seq<Vec4> {
    Concat(Quads(R, h), NumCircPoints)
  }

  function Segments(R: Rings): nat -> seq<Vec4> {
    (h: nat) => Segment(R, h)
  }

  /** Second cap triangle i: (centre, point i + 1, point i) of the last ring, reversed. */
  function SecondCapTriangle(R: Rings): nat -> seq<Vec4> {
    (i: nat) => [SecondCenter, R(ShellSegments, Next(i)), R(ShellSegments, i)]
  }

  function FirstCap(R: Rings): seq<Vec4> {
    Concat(FirstCapTriangle(R), NumCircPoints)
  }

  /** The first n segments of the shell. */
  function Shell(R: Rings, n: nat): seq<Vec4> {
    Concat(Segments(R), n)
  }

  function SecondCap(R: Rings): seq<Vec4> {
    Concat(SecondCapTriangle(R), NumCircPoints)
  }

  /** Everything myObject writes before the closing transform. */
  function ObjectVertices(R: Rings): seq<Vec4> {
    FirstCap(R) + Shell(R, ShellSegments) + SecondCap(R)
  }

  // ---------------------------------------------------------------------------
  // myObject and its loops

  /** Lines 85-93: refCirc1 filled with the unit circle moved 2 along x. */
  method MakeRefCircle(cos: real -> real, sin: real -> real, step: Vec4 -> Vec4) returns (ref: array<Vec4>)
    ensures fresh(ref) && ref[..] == Ring(Spring(cos, sin, step), 0, NumCircPoints)
  {
    ref := new Vec4[NumCircPoints];
    var i := 0;
    while i < NumCircPoints
      invariant 0 <= i <= NumCircPoints
      invariant forall j :: 0 <= j < i ==> ref[j] == RefPoint(cos, sin, j)
    {
      var x := cos(Theta * (i as real)) + 2.0;
      var y := sin(Theta * (i as real));
      ref[i] := Vec4(x, y, 0.0, 1.0);
      i := i + 1;
    }
    assert forall j :: 0 <= j < NumCircPoints ==> ref[j] == Spring(cos, sin, step)(0, j);
  }

  /** Lines 97-98: the memcpy of refCirc1 into a fresh refCirc2. */
  method CopyRing(src: array<Vec4>) returns (dst: array<Vec4>)
    ensures fresh(dst) && dst[..] == src[..]
  {
    dst := new Vec4[src.Length];
    forall i | 0 <= i < src.Length {
      dst[i] := src[i];
    }
  }

  /** The spring is such a family: each ring is the previous one moved by step. */
  lemma SpringAdvances(cos: real -> real, sin: real -> real, step: Vec4 -> Vec4)
    ensures Advances(Spring(cos, sin, step), step)
  {
    var R := Spring(cos, sin, step);
    forall k: nat, j: nat
      ensures R(k + 1, j) == step(R(k, j))
    {
      assert R(k + 1, j) == Iter(step, k + 1, RefPoint(cos, sin, j));
    }
  }

  /** Lines 113-118: the first end cap from refCirc2, which holds ring 0. */
  method EmitFirstCap(m: Mesh, ref2: array<Vec4>, ghost R: Rings)
    requires m.Valid() && m.numVertices + 3 * NumCircPoints <= m.vertices.Length
    requires ref2[..] == Ring(R, 0, NumCircPoints) && ref2 != m.vertices
    modifies m, m.vertices
    ensures m.Valid() && m.Vertices() == old(m.Vertices()) + FirstCap(R)
    ensures m.vertices == old(m.vertices) && m.numVertices == old(m.numVertices) + 3 * NumCircPoints
    ensures m.colors == old(m.colors) && m.numColors == old(m.numColors)
    ensures m.texCoords == old(m.texCoords) && m.numTexCoords == old(m.numTexCoords)
  {
    ghost var before := m.Vertices();
    var i := 0;
    while i < NumCircPoints
      invariant 0 <= i <= NumCircPoints
      invariant m.Valid() && m.vertices == old(m.vertices) && m.numVertices == old(m.numVertices) + 3 * i
      invariant m.colors == old(m.colors) && m.numColors == old(m.numColors)
      invariant m.texCoords == old(m.texCoords) && m.numTexCoords == old(m.numTexCoords)
      invariant m.Vertices() == before + Concat(FirstCapTriangle(R), i)
    {
      m.PushTriangle(Vec4(2.0, 0.0, 0.0, 1.0), ref2[i], ref2[(i + 1) % NumCircPoints]);
      assert ref2[i] == Ring(R, 0, NumCircPoints)[i] == R(0, i);
      assert ref2[(i + 1) % NumCircPoints] == R(0, Next(i));
      assert FirstCapTriangle(R)(i) == [Vec4(2.0, 0.0, 0.0, 1.0), ref2[i], ref2[(i + 1) % NumCircPoints]];
      ConcatStep(FirstCapTriangle(R), i);
      AppendAssoc(before, Concat(FirstCapTriangle(R), i), FirstCapTriangle(R)(i));
      i := i + 1;
    }
  }

  /** Lines 124-135: the shell of segment h, between refCirc2 (ring h) and refCirc1 (ring h + 1). */
  method EmitSegment(m: Mesh, ref1: array<Vec4>, ref2: array<Vec4>, ghost R: Rings, ghost h: nat)
    requires m.Valid() && m.numVertices + 6 * NumCircPoints <= m.vertices.Length
    requires ref1[..] == Ring(R, h + 1, NumCircPoints) && ref1 != m.vertices
    requires ref2[..] == Ring(R, h, NumCircPoints) && ref2 != m.vertices
    modifies m, m.vertices
    ensures m.Valid() && m.Vertices() == old(m.Vertices()) + Segment(R, h)
    ensures m.vertices == old(m.vertices) && m.numVertices == old(m.numVertices) + 6 * NumCircPoints
    ensures m.colors == old(m.colors) && m.numColors == old(m.numColors)
    ensures m.texCoords == old(m.texCoords) && m.numTexCoords == old(m.numTexCoords)
  {
    ghost var before := m.Vertices();
    var i := 0;
    while i < NumCircPoints
      invariant 0 <= i <= NumCircPoints
      invariant m.Valid() && m.vertices == old(m.vertices) && m.numVertices == old(m.numVertices) + 6 * i
      invariant m.colors == old(m.colors) && m.numColors == old(m.numColors)
      invariant m.texCoords == old(m.texCoords) && m.numTexCoords == old(m.numTexCoords)
      invariant m.Vertices() == before + Concat(Quads(R, h), i)
    {
      ghost var done := m.Vertices();
      var n := (i + 1) % NumCircPoints;
      m.PushTriangle(ref2[i], ref1[i], ref2[n]);
      m.PushTriangle(ref1[i], ref1[n], ref2[n]);
      AppendAssoc(done, [ref2[i], ref1[i], ref2[n]], [ref1[i], ref1[n], ref2[n]]);
      ConcatStep(Quads(R, h), i);
      AppendAssoc(before, Concat(Quads(R, h), i), Quad(R, h, i));
      i := i + 1;
    }
  }

  /** One iteration of the shell loop: segment h, then both reference circles advanced. */
  method ShellStep(m: Mesh, ref1: array<Vec4>, ref2: array<Vec4>, step: Vec4 -> Vec4, ghost R: Rings, ghost h: nat)
    requires m.Valid() && m.numVertices + 6 * NumCircPoints <= m.vertices.Length
    requires ref1 != m.vertices && ref2 != m.vertices && ref1 != ref2
    requires Advances(R, step)
    requires ref1[..] == Ring(R, h + 1, NumCircPoints) && ref2[..] == Ring(R, h, NumCircPoints)
    modifies m, m.vertices, ref1, ref2
    ensures m.Valid() && m.Vertices() == old(m.Vertices()) + Segment(R, h)
    ensures m.vertices == old(m.vertices) && m.numVertices == old(m.numVertices) + 6 * NumCircPoints
    ensures m.colors == old(m.colors) && m.numColors == old(m.numColors)
    ensures m.texCoords == old(m.texCoords) && m.numTexCoords == old(m.numTexCoords)
    ensures ref1[..] == Ring(R, h + 2, NumCircPoints) && ref2[..] == Ring(R, h + 1, NumCircPoints)
  {
    EmitSegment(m, ref1, ref2, R, h);
    ghost var vs := m.Vertices();
    AdvanceRing(ref1, step);
    AdvanceRing(ref2, step);
    assert m.Vertices() == vs;
    AdvanceRingSpec(R, step, h + 1, NumCircPoints);
    AdvanceRingSpec(R, step, h, NumCircPoints);
  }

  /**
   * Lines 120-143: ShellSegments segments of shell, each followed by
   * advancing both reference circles by `step`.  On return refCirc2 holds
   * the last ring.
   */
  method EmitShell(m: Mesh, refCirc1: array<Vec4>, refCirc2: array<Vec4>, step: Vec4 -> Vec4, ghost R: Rings)
    requires m.Valid() && m.numVertices + 216 * ShellSegments <= m.vertices.Length
    requires refCirc1 != m.vertices && refCirc2 != m.vertices && refCirc1 != refCirc2
    requires Advances(R, step)
    requires refCirc1[..] == Ring(R, 1, NumCircPoints) && refCirc2[..] == Ring(R, 0, NumCircPoints)
    modifies m, m.vertices, refCirc1, refCirc2
    ensures m.Valid() && m.Vertices() == old(m.Vertices()) + Shell(R, ShellSegments)
    ensures m.vertices == old(m.vertices) && m.numVertices == old(m.numVertices) + 216 * ShellSegments
    ensures m.colors == old(m.colors) && m.numColors == old(m.numColors)
    ensures m.texCoords == old(m.texCoords) && m.numTexCoords == old(m.numTexCoords)
    ensures refCirc2[..] == Ring(R, ShellSegments, NumCircPoints)
  {
    ghost var before := m.Vertices();
    var h := 0;
    while h < ShellSegments
      invariant 0 <= h <= ShellSegments
      invariant m.Valid() && m.vertices == old(m.vertices)
      invariant m.numVertices == old(m.numVertices) + 216 * h
      invariant m.colors == old(m.colors) && m.numColors == old(m.numColors)
      invariant m.texCoords == old(m.texCoords) && m.numTexCoords == old(m.numTexCoords)
      invariant refCirc1[..] == Ring(R, h + 1, NumCircPoints) && refCirc2[..] == Ring(R, h, NumCircPoints)
      invariant m.Vertices() == before + Shell(R, h)
    {
      ShellStep(m, refCirc1, refCirc2, step, R, h);
      ConcatStep(Segments(R), h);
      AppendAssoc(before, Shell(R, h), Segment(R, h));
      h := h + 1;
    }
  }

  /** Lines 146-151: the second end cap, reversed, from refCirc2 (the last ring). */
  method EmitSecondCap(m: Mesh, ref2: array<Vec4>, ghost R: Rings)
    requires m.Valid() && m.numVertices + 3 * NumCircPoints <= m.vertices.Length
    requires ref2[..] == Ring(R, ShellSegments, NumCircPoints) && ref2 != m.vertices
    modifies m, m.vertices
    ensures m.Valid() && m.Vertices() == old(m.Vertices()) + SecondCap(R)
    ensures m.vertices == old(m.vertices) && m.numVertices == old(m.numVertices) + 3 * NumCircPoints
    ensures m.colors == old(m.colors) && m.numColors == old(m.numColors)
    ensures m.texCoords == old(m.texCoords) && m.numTexCoords == old(m.numTexCoords)
  {
    ghost var before := m.Vertices();
    var i := 0;
    while i < NumCircPoints
      invariant 0 <= i <= NumCircPoints
      invariant m.Valid() && m.vertices == old(m.vertices) && m.numVertices == old(m.numVertices) + 3 * i
      invariant m.colors == old(m.colors) && m.numColors == old(m.numColors)
      invariant m.texCoords == old(m.texCoords) && m.numTexCoords == old(m.numTexCoords)
      invariant m.Vertices() == before + Concat(SecondCapTriangle(R), i)
    {
      m.PushTriangle(Vec4(2.0, (ShellSegments as real) * 0.1, 0.0, 1.0),
                     ref2[(i + 1) % NumCircPoints], ref2[i]);
      assert ref2[i] == Ring(R, ShellSegments, NumCircPoints)[i] == R(ShellSegments, i);
      assert ref2[(i + 1) % NumCircPoints] == R(ShellSegments, Next(i));
      assert SecondCapTriangle(R)(i) == [Vec4(2.0, (ShellSegments as real) * 0.1, 0.0, 1.0), ref2[(i + 1) % NumCircPoints], ref2[i]];
      ConcatStep(SecondCapTriangle(R), i);
      AppendAssoc(before, Concat(SecondCapTriangle(R), i), SecondCapTriangle(R)(i));
      i := i + 1;
    }
  }

  /** Lines 113-151: both caps and the shell between them, written into a buffer of NumVerts. */
  method EmitObject(m: Mesh, refCirc1: array<Vec4>, refCirc2: array<Vec4>, step: Vec4 -> Vec4, ghost R: Rings)
    requires m.Valid() && m.numVertices == 0 && m.vertices.Length == NumVerts
    requires refCirc1 != m.vertices && refCirc2 != m.vertices && refCirc1 != refCirc2
    requires Advances(R, step)
    requires refCirc1[..] == Ring(R, 1, NumCircPoints) && refCirc2[..] == Ring(R, 0, NumCircPoints)
    modifies m, m.vertices, refCirc1, refCirc2
    ensures m.Valid() && m.vertices == old(m.vertices) && m.numVertices == NumVerts
    ensures m.Vertices() == ObjectVertices(R)
    ensures m.colors == old(m.colors) && m.numColors == old(m.numColors)
    ensures m.texCoords == old(m.texCoords) && m.numTexCoords == old(m.numTexCoords)
  {
    assert m.Vertices() == [];
    EmitFirstCap(m, refCirc2, R);
    assert m.Vertices() == FirstCap(R);
    EmitShell(m, refCirc1, refCirc2, step, R);
    EmitSecondCap(m, refCirc2, R);
  }

  /**
   * myObject: allocates exactly NumVerts vertices, writes the first cap, the
   * ShellSegments shell segments (advancing both reference circles by
   * `step` after each), the second cap, and finally maps every vertex
   * through `fit`.  The vertex counter has to start at zero.
   */
  method MyObject(m: Mesh, cos: real -> real, sin: real -> real, step: Vec4 -> Vec4, fit: Vec4 -> Vec4)
    requires m.Valid() && m.numVertices == 0
    modifies m
    ensures m.Valid() && fresh(m.vertices)
    ensures m.vertices.Length == NumVerts == m.numVertices
    ensures m.Vertices() == MapVec(fit, ObjectVertices(Spring(cos, sin, step)))
    ensures m.colors == old(m.colors) && m.numColors == old(m.numColors)
    ensures m.texCoords == old(m.texCoords) && m.numTexCoords == old(m.numTexCoords)
  {
    ghost var R := Spring(cos, sin, step);
    m.vertices := new Vec4[NumVerts];

    var refCirc1 := MakeRefCircle(cos, sin, step);
    var refCirc2 := CopyRing(refCirc1);
    AdvanceRing(refCirc1, step);
    SpringAdvances(cos, sin, step);
    AdvanceRingSpec(R, step, 0, NumCircPoints);

    EmitObject(m, refCirc1, refCirc2, step, R);
    m.TransformVertices(fit);
  }

  // ---------------------------------------------------------------------------
  // Properties of the spring

  lemma SegmentLength(R: Rings, h: nat)
    ensures |Segment(R, h)| == 216
  {
    ConcatLength(Quads(R, h), NumCircPoints, 6);
  }

  /** Each segment has 6 vertices per ring point, 216 in all, and quad i sits at 6i. */
  lemma SegmentLayout(R: Rings, h: nat, i: nat)
    requires i < NumCircPoints
    ensures |Segment(R, h)| == 216
    ensures Segment(R, h)[6 * i .. 6 * i + 6] == Quad(R, h, i)
  {
    ConcatPiece(Quads(R, h), NumCircPoints, 6, i);
  }

  /** The first n segments of the shell: 216 vertices each, segment h at 216h. */
  lemma ShellLayout(R: Rings, n: nat, h: nat)
    requires h < n
    ensures |Shell(R, n)| == 216 * n && 216 * h + 216 <= 216 * n
    ensures Shell(R, n)[216 * h .. 216 * h + 216] == Segment(R, h)
  {
    MulMono(216, h + 1, n);
    forall g: nat | g < n
      ensures |Segments(R)(g)| == 216
    {
      SegmentLength(R, g);
    }
    ConcatPiece(Segments(R), n, 216, h);
  }

  /** myObject writes exactly the NumVerts = 23544 vertices it allocates. */
  lemma VertexCount(R: Rings)
    ensures |ObjectVertices(R)| == NumVerts
    ensures NumVerts == NumSegments * NumCircPoints * NumCoils * 6 + 2 * 3 * NumCircPoints
  {
    ConcatLength(FirstCapTriangle(R), NumCircPoints, 3);
    ConcatLength(SecondCapTriangle(R), NumCircPoints, 3);
    ShellLayout(R, ShellSegments, 0);
  }

  /**
   * Within the shell, quad i of segment h starts at 216h + 6i: the triangles
   * (ring h at i, ring h + 1 at i, ring h at i + 1) and (ring h + 1 at i,
   * ring h + 1 at i + 1, ring h at i + 1), with i + 1 taken mod 36.
   */
  lemma ShellQuad(R: Rings, n: nat, h: nat, i: nat)
    requires h < n && i < NumCircPoints
    ensures |Shell(R, n)| == 216 * n && 216 * h + 6 * i + 6 <= |Shell(R, n)|
    ensures Shell(R, n)[216 * h + 6 * i .. 216 * h + 6 * i + 6] == Quad(R, h, i)
  {
    ShellLayout(R, n, h);
    SegmentLayout(R, h, i);
    QuadInSegment(Shell(R, n), Segment(R, h), Quad(R, h, i), h, i);
  }

  /** Six entries at 6i inside the 216 entries at 216h sit at 216h + 6i. */
  lemma QuadInSegment(s: seq<Vec4>, seg: seq<Vec4>, q: seq<Vec4>, h: nat, i: nat)
    requires i < NumCircPoints && 216 * h + 216 <= |s| && |seg| == 216 && |q| == 6
    requires s[216 * h .. 216 * h + 216] == seg && seg[6 * i .. 6 * i + 6] == q
    ensures 216 * h + 6 * i + 6 <= |s| && s[216 * h + 6 * i .. 216 * h + 6 * i + 6] == q
  {
    PieceOfPiece(s, seg, q, 216 * h, 6 * i, 216, 6);
  }

  /** Consecutive segments meet: the leading ring of segment h is the trailing ring of segment h + 1. */
  lemma SegmentsJoin(R: Rings, h: nat, i: nat)
    ensures Quad(R, h, i)[1] == Quad(R, h + 1, i)[0]
    ensures Quad(R, h, i)[4] == Quad(R, h + 1, i)[2]
  {
  }

  /**
   * The caps: first-cap triangle i is (centre, point i, point i + 1) of
   * ring 0; second-cap triangle i lists the last ring's points in the
   * opposite order, around a centre 10.8 higher.
   */
  lemma CapTriangles(R: Rings, i: nat)
    requires i < NumCircPoints
    ensures var c := FirstCap(R);
      && |c| == 3 * NumCircPoints
      && c[3 * i .. 3 * i + 3] == [FirstCenter, R(0, i), R(0, Next(i))]
    ensures var c := SecondCap(R);
      && |c| == 3 * NumCircPoints
      && c[3 * i .. 3 * i + 3] == [Vec4(2.0, 10.8, 0.0, 1.0), R(ShellSegments, Next(i)), R(ShellSegments, i)]
  {
    ConcatPiece(FirstCapTriangle(R), NumCircPoints, 3, i);
    ConcatPiece(SecondCapTriangle(R), NumCircPoints, 3, i);
  }

  // ---------------------------------------------------------------------------
  // idle and keyboard

  /** The per-frame increment of idleRads. */
  const Step: real := 0.005

  /**
   * The new idleRads after one idle call: unchanged while paused; otherwise
   * 0.005 more, falling back to 0 once past 2π.
   */
  function NextIdleRads(rads: real, pause: bool): (r: real)
    ensures pause ==> r == rads
    ensures !pause ==> r <= 2.0 * Pi && (r == 0.0 || r == rads + Step)
    ensures 0.0 <= rads <= 2.0 * Pi ==> 0.0 <= r <= 2.0 * Pi
  {
    if pause then rads
    else if rads + Step > 2.0 * Pi then 0.0
    else rads + Step
  }

  /** The program's animation state: the angle, the pause flag, and whether the main loop still runs. */
  class Controls {
    var idleRads: real
    var pause: bool
    var running: bool

    /** Paused at angle 0, as the globals are initialised. */
    constructor ()
      ensures idleRads == 0.0 && pause && running
    {
      idleRads, pause, running := 0.0, true, true;
    }

    /** idle: advances the angle unless paused; the rotation matrix built from it is not modelled. */
    method Idle()
      modifies this
      ensures idleRads == NextIdleRads(old(idleRads), old(pause))
      ensures pause == old(pause) && running == old(running)
    {
      if !pause {
        idleRads := idleRads + Step;
        if idleRads > 2.0 * Pi {
          idleRads := 0.0;
        }
      }
    }

    /** keyboard: 'q' leaves the main loop, ' ' toggles the pause; other keys do nothing. */
    method Keyboard(key: char)
      modifies this
      ensures running == (old(running) && key != 'q')
      ensures pause == (if key == ' ' then !old(pause) else old(pause))
      ensures idleRads == old(idleRads)
    {
      if key == 'q' {
        running := false;
      }
      if key == ' ' {
        pause := !pause;
      }
    }
  }

  /** idleRads after k idle calls with a fixed pause flag. */
  function IdleRads(k: nat, r: real, pause: bool): real {
    if k == 0 then r else NextIdleRads(IdleRads(k - 1, r, pause), pause)
  }

  /** From the initial 0 the angle stays in [0, 2π], whatever the pause flag. */
  lemma {:induction false} IdleInRange(k: nat, pause: bool)
    ensures 0.0 <= IdleRads(k, 0.0, pause) <= 2.0 * Pi
  {
    if k > 0 {
      IdleInRange(k - 1, pause);
    }
  }

  /** While paused the angle never moves. */
  lemma {:induction false} PausedFreezes(k: nat, r: real)
    ensures IdleRads(k, r, true) == r
  {
    if k > 0 {
      PausedFreezes(k - 1, r);
    }
  }
}
