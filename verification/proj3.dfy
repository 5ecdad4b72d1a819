/**
 * proj3/proj3.c: loading a Wavefront OBJ file (readFile) and fitting the
 * loaded model into the view volume (centerScale).  Its unitSphere is
 * module Sphere.
 *
 * readFile reads `v`, `vt` and `f` lines.  The lines reach the model already
 * split into tokens and converted by sscanf: an `ObjLine` per line of the
 * file.  A face line lists `vi/ti` pairs; it is fan-triangulated, its vertex
 * indices select from the `v` lines read so far and its texture indices,
 * which start at 1, from the `vt` lines read so far.
 *
 * The vertex index is used as given, although OBJ vertex indices start at
 * 1 just like the texture indices.  The model takes the offset subtracted
 * from a vertex index as the parameter `vBase`: AsWrittenBase (0) is the
 * program, ObjBase (1) the OBJ convention.  centerScale likewise takes the
 * absolute value of its ranges as a parameter: IntegerAbs is the program,
 * RealAbs the evidently intended one.
 */
module Proj3 {
  import opened Vec
  import opened Mesh

  // ---------------------------------------------------------------------------
  // OBJ lines and the lists readFile builds

  /** One `vi/ti` token of a face line. */
  datatype FaceEntry = FaceEntry(vi: int, ti: int)

  /** A line of the file, by its first token. */
  datatype ObjLine =
    | VertexLine(x: real, y: real, z: real)
    | TexLine(s: real, t: real)
    | FaceLine(entries: seq<FaceEntry>)
    | OtherLine

  /** The face token buffer holds 100 entries. */
  const MaxFaceEntries: nat := 100

  /** What the program subtracts from a vertex index. */
  const AsWrittenBase: int := 0
  /** What the OBJ format's 1-based vertex indices call for. */
  const ObjBase: int := 1

  /** The four lists: raw vertices and texture coordinates, and both in face order. */
  datatype ObjState = ObjState(vertTemp: seq<Vec4>, texTemp: seq<Vec2>, vertOrdered: seq<Vec4>, texOrdered: seq<Vec2>)

  const Empty: ObjState := ObjState([], [], [], [])

  /**
   * How reading stops: every line read, a face line with fewer than 3
   * entries at `line` (the program exits), or a face line at `line` whose
   * lookups the program does not guard (more than 100 entries, or an index
   * outside the lists read so far), where its behaviour is undefined.
   */
  datatype Outcome = Loaded(st: ObjState) | ShortFace(line: nat) | Undefined(line: nat)

  // ---------------------------------------------------------------------------
  // Fan triangulation

  /** Triangle i of the fan over xs: (xs[0], xs[i + 1], xs[i + 2]). */
  function FanTriangle<T>(xs: seq<T>, i: nat): seq<T>
    requires i + 2 < |xs|
  {
    [xs[0], xs[i + 1], xs[i + 2]]
  }

  /** The first n triangles of the fan over xs, flattened. */
  function FanPrefix<T>(xs: seq<T>, n: nat): seq<T>
    requires n == 0 || n + 2 <= |xs|
  {
    if n == 0 then [] else FanPrefix(xs, n - 1) + FanTriangle(xs, n - 1)
  }

  /** The triangles 1,2,3; 1,3,4; 1,4,5; ... of a face, flattened. */
  function Fan<T>(xs: seq<T>): seq<T> {
    if |xs| < 3 then [] else FanPrefix(xs, |xs| - 2)
  }

  /** A face of n >= 3 entries is the first n - 2 triangles. */
  lemma FanUnfold<T>(xs: seq<T>)
    ensures |xs| >= 3 ==> Fan(xs) == FanPrefix(xs, |xs| - 2)
  {
  }

  /** n triangles are 3n entries. */
  lemma {:induction false} FanPrefixLength<T>(xs: seq<T>, n: nat)
    requires n == 0 || n + 2 <= |xs|
    ensures |FanPrefix(xs, n)| == 3 * n
  {
    if n > 0 {
      FanPrefixLength(xs, n - 1);
    }
  }

  /** A face of fewer than 3 entries has no triangles; one of n >= 3 has n - 2. */
  lemma FanLength<T>(xs: seq<T>)
    ensures |xs| < 3 ==> Fan(xs) == []
    ensures |xs| >= 3 ==> |Fan(xs)| == 3 * (|xs| - 2)
  {
    if |xs| >= 3 {
      FanPrefixLength(xs, |xs| - 2);
    }
  }

  /** Triangle i of the first n sits at 3i. */
  lemma {:induction false} FanPrefixLayout<T>(xs: seq<T>, n: nat, i: nat)
    requires i < n && n + 2 <= |xs|
    ensures 3 * i + 3 <= |FanPrefix(xs, n)|
    ensures FanPrefix(xs, n)[3 * i .. 3 * i + 3] == FanTriangle(xs, i)
  {
    FanPrefixLength(xs, n - 1);
    var front := FanPrefix(xs, n - 1);
    if i < n - 1 {
      FanPrefixLayout(xs, n - 1, i);
      assert (front + FanTriangle(xs, n - 1))[3 * i .. 3 * i + 3] == front[3 * i .. 3 * i + 3];
    } else {
      assert |front| == 3 * i;
    }
  }

  /** Triangle i of the fan sits at 3i and is (xs[0], xs[i + 1], xs[i + 2]). */
  lemma FanLayout<T>(xs: seq<T>, i: nat)
    requires i + 2 < |xs|
    ensures 3 * i + 3 <= |Fan(xs)|
    ensures Fan(xs)[3 * i .. 3 * i + 3] == [xs[0], xs[i + 1], xs[i + 2]]
  {
    FanPrefixLayout(xs, |xs| - 2, i);
  }

  /** Triangle i of a fan appended to prefix sits at |prefix| + 3i. */
  lemma AppendedFanLayout<T>(prefix: seq<T>, xs: seq<T>, i: nat)
    requires i + 2 < |xs|
    ensures |prefix + Fan(xs)| == |prefix| + 3 * (|xs| - 2)
    ensures (prefix + Fan(xs))[|prefix| + 3 * i .. |prefix| + 3 * i + 3] == [xs[0], xs[i + 1], xs[i + 2]]
  {
    FanLength(xs);
    FanLayout(xs, i);
    assert (prefix + Fan(xs))[|prefix| + 3 * i .. |prefix| + 3 * i + 3] == Fan(xs)[3 * i .. 3 * i + 3];
  }

  // ---------------------------------------------------------------------------
  // One line of the file

  predicate EntryInRange(e: FaceEntry, st: ObjState, vBase: int) {
    vBase <= e.vi < |st.vertTemp| + vBase && 1 <= e.ti <= |st.texTemp|
  }

  predicate AllInRange(es: seq<FaceEntry>, st: ObjState, vBase: int) {
    forall k :: 0 <= k < |es| ==> EntryInRange(es[k], st, vBase)
  }

  /** `vertTemp.items[vi]`, with the base subtracted, for every entry of the face. */
  function GatherVerts(es: seq<FaceEntry>, st: ObjState, vBase: int): (r: seq<Vec4>)
    requires AllInRange(es, st, vBase)
    ensures |r| == |es|
  {
    seq(|es|, k requires 0 <= k < |es| => st.vertTemp[es[k].vi - vBase])
  }

  /** `texTemp.items[ti - 1]` for every entry of the face. */
  function GatherTex(es: seq<FaceEntry>, st: ObjState, vBase: int): (r: seq<Vec2>)
    requires AllInRange(es, st, vBase)
    ensures |r| == |es|
  {
    seq(|es|, k requires 0 <= k < |es| => st.texTemp[es[k].ti - 1])
  }

  /** The effect of line number p of the file on the four lists. */
  function Step(st: ObjState, line: ObjLine, p: nat, vBase: int): Outcome {
    match line
    case VertexLine(x, y, z) => Loaded(st.(vertTemp := st.vertTemp + [Vec4(x, y, z, 1.0)]))
    case TexLine(s, t) => Loaded(st.(texTemp := st.texTemp + [Vec2(s, 1.0 - t)]))
    case FaceLine(es) =>
      if |es| > MaxFaceEntries then Undefined(p)
      else if |es| < 3 then ShortFace(p)
      else if !AllInRange(es, st, vBase) then Undefined(p)
      else Loaded(st.(vertOrdered := st.vertOrdered + Fan(GatherVerts(es, st, vBase)),
                      texOrdered := st.texOrdered + Fan(GatherTex(es, st, vBase))))
    case OtherLine => Loaded(st)
  }

  /** What readFile has built after the given lines. */
  function ReadObj(lines: seq<ObjLine>, vBase: int): Outcome
    decreases |lines|
  {
    if |lines| == 0 then Loaded(Empty)
    else
      match ReadObj(lines[..|lines| - 1], vBase)
      case Loaded(st) => Step(st, lines[|lines| - 1], |lines| - 1, vBase)
      case stop => stop
  }

  /** Once reading has stopped, later lines change nothing. */
  lemma {:induction false} ReadObjSticky(lines: seq<ObjLine>, i: nat, vBase: int)
    requires i <= |lines| && !ReadObj(lines[..i], vBase).Loaded?
    ensures ReadObj(lines, vBase) == ReadObj(lines[..i], vBase)
  {
    if i < |lines| {
      var front := lines[..|lines| - 1];
      assert front[..i] == lines[..i];
      ReadObjSticky(front, i, vBase);
    } else {
      assert lines[..i] == lines;
    }
  }

  // ---------------------------------------------------------------------------
  // What each kind of line does

  /**
   * A `v` line appends (x, y, z, 1) to the raw vertices, a `vt` line appends
   * (s, 1 - t) to the raw texture coordinates, and any other line that is
   * not a face changes nothing; none of them touches the ordered lists.
   */
  lemma NonFaceLines(st: ObjState, line: ObjLine, p: nat, vBase: int)
    requires !line.FaceLine?
    ensures Step(st, line, p, vBase).Loaded?
    ensures var st' := Step(st, line, p, vBase).st;
      && st'.vertOrdered == st.vertOrdered && st'.texOrdered == st.texOrdered
      && (line.VertexLine? ==> st'.vertTemp == st.vertTemp + [Vec4(line.x, line.y, line.z, 1.0)] && st'.texTemp == st.texTemp)
      && (line.TexLine? ==> st'.texTemp == st.texTemp + [Vec2(line.s, 1.0 - line.t)] && st'.vertTemp == st.vertTemp)
      && (line.OtherLine? ==> st' == st)
  {
  }

  /** A face line with fewer than 3 entries and at most 100 stops reading at that line. */
  lemma ShortFaceStops(st: ObjState, es: seq<FaceEntry>, p: nat, vBase: int)
    requires |es| < 3
    ensures Step(st, FaceLine(es), p, vBase) == ShortFace(p)
  {
  }

  /**
   * A face of n >= 3 entries in range appends 3(n - 2) vertices and leaves
   * the raw lists alone; triangle i of it is entries 0, i + 1 and i + 2, each
   * vertex `vertTemp[vi - vBase]`.
   */
  lemma FaceVertices(st: ObjState, es: seq<FaceEntry>, p: nat, vBase: int, i: nat)
    requires 3 <= |es| <= MaxFaceEntries && AllInRange(es, st, vBase) && i + 2 < |es|
    ensures Step(st, FaceLine(es), p, vBase).Loaded?
    ensures var st' := Step(st, FaceLine(es), p, vBase).st;
      && st'.vertTemp == st.vertTemp && st'.texTemp == st.texTemp
      && |st'.vertOrdered| == |st.vertOrdered| + 3 * (|es| - 2)
      && st'.vertOrdered[|st.vertOrdered| + 3 * i .. |st.vertOrdered| + 3 * i + 3]
         == [st.vertTemp[es[0].vi - vBase], st.vertTemp[es[i + 1].vi - vBase], st.vertTemp[es[i + 2].vi - vBase]]
  {
    var vs := GatherVerts(es, st, vBase);
    assert Step(st, FaceLine(es), p, vBase).st.vertOrdered == st.vertOrdered + Fan(vs);
    AppendedFanLayout(st.vertOrdered, vs, i);
    assert vs[0] == st.vertTemp[es[0].vi - vBase] && vs[i + 1] == st.vertTemp[es[i + 1].vi - vBase];
    assert vs[i + 2] == st.vertTemp[es[i + 2].vi - vBase];
  }

  /**
   * The same face appends 3(n - 2) texture coordinates; triangle i of them
   * is `texTemp[ti - 1]` of entries 0, i + 1 and i + 2.
   */
  lemma FaceTexCoords(st: ObjState, es: seq<FaceEntry>, p: nat, vBase: int, i: nat)
    requires 3 <= |es| <= MaxFaceEntries && AllInRange(es, st, vBase) && i + 2 < |es|
    ensures Step(st, FaceLine(es), p, vBase).Loaded?
    ensures var st' := Step(st, FaceLine(es), p, vBase).st;
      && |st'.texOrdered| == |st.texOrdered| + 3 * (|es| - 2)
      && st'.texOrdered[|st.texOrdered| + 3 * i .. |st.texOrdered| + 3 * i + 3]
         == [st.texTemp[es[0].ti - 1], st.texTemp[es[i + 1].ti - 1], st.texTemp[es[i + 2].ti - 1]]
  {
    var ts := GatherTex(es, st, vBase);
    assert Step(st, FaceLine(es), p, vBase).st.texOrdered == st.texOrdered + Fan(ts);
    AppendedFanLayout(st.texOrdered, ts, i);
    assert ts[0] == st.texTemp[es[0].ti - 1] && ts[i + 1] == st.texTemp[es[i + 1].ti - 1];
    assert ts[i + 2] == st.texTemp[es[i + 2].ti - 1];
  }

  /** Number of triangles the faces of the given lines produce. */
  function FanTriangles(lines: seq<ObjLine>): nat
    decreases |lines|
  {
    if |lines| == 0 then 0
    else
      var last := lines[|lines| - 1];
      FanTriangles(lines[..|lines| - 1])
        + (if last.FaceLine? && |last.entries| >= 3 then |last.entries| - 2 else 0)
  }

  /**
   * Whenever the whole file is read, the vertex and texture coordinate
   * lists in face order have the same length, three per fan triangle.
   */
  lemma {:induction false} OrderedLengths(lines: seq<ObjLine>, vBase: int)
    requires ReadObj(lines, vBase).Loaded?
    ensures |ReadObj(lines, vBase).st.vertOrdered| == |ReadObj(lines, vBase).st.texOrdered|
    ensures |ReadObj(lines, vBase).st.vertOrdered| == 3 * FanTriangles(lines)
    decreases |lines|
  {
    if |lines| > 0 {
      var front := lines[..|lines| - 1];
      OrderedLengths(front, vBase);
      var last := lines[|lines| - 1];
      var st := ReadObj(front, vBase).st;
      if last.FaceLine? && AllInRange(last.entries, st, vBase) {
        FanLength(GatherVerts(last.entries, st, vBase));
        FanLength(GatherTex(last.entries, st, vBase));
      }
    }
  }

  // ---------------------------------------------------------------------------
  // readFile

  /**
   * readFile's loop over the lines of the file, on the four lists.  A face
   * line with fewer than 3 entries ends it (the program exits with status
   * 1); the file must not drive the program into an unguarded lookup.
   */
  method ReadFile(lines: seq<ObjLine>, vBase: int) returns (r: Outcome)
    requires !ReadObj(lines, vBase).Undefined?
    ensures r == ReadObj(lines, vBase)
    ensures r.Loaded? || r.ShortFace?
  {
    var vertTemp: seq<Vec4> := [];
    var texTemp: seq<Vec2> := [];
    var vertOrdered: seq<Vec4> := [];
    var texOrdered: seq<Vec2> := [];
    var p := 0;
    while p < |lines|
      invariant 0 <= p <= |lines|
      invariant ReadObj(lines[..p], vBase) == Loaded(ObjState(vertTemp, texTemp, vertOrdered, texOrdered))
    {
      assert lines[..p + 1][..p] == lines[..p];
      if !ReadObj(lines[..p + 1], vBase).Loaded? {
        ReadObjSticky(lines, p + 1, vBase);
      }
      match lines[p] {
        case VertexLine(x, y, z) =>
          vertTemp := vertTemp + [Vec4(x, y, z, 1.0)];
        case TexLine(s, t) =>
          texTemp := texTemp + [Vec2(s, 1.0 - t)];
        case FaceLine(es) =>
          if |es| < 3 {
            return ShortFace(p);
          }
          vertOrdered, texOrdered := EmitFace(es, ObjState(vertTemp, texTemp, vertOrdered, texOrdered), vBase);
        case OtherLine =>
      }
      p := p + 1;
    }
    assert lines[..p] == lines;
    r := Loaded(ObjState(vertTemp, texTemp, vertOrdered, texOrdered));
  }

  /** The fan loop of one face: entries 0, i + 1 and i + 2 for i = 0 .. n - 3. */
  method EmitFace(es: seq<FaceEntry>, st: ObjState, vBase: int) returns (vertOrdered: seq<Vec4>, texOrdered: seq<Vec2>)
    requires 3 <= |es| && AllInRange(es, st, vBase)
    ensures vertOrdered == st.vertOrdered + Fan(GatherVerts(es, st, vBase))
    ensures texOrdered == st.texOrdered + Fan(GatherTex(es, st, vBase))
  {
    ghost var vs, ts := GatherVerts(es, st, vBase), GatherTex(es, st, vBase);
    vertOrdered, texOrdered := st.vertOrdered, st.texOrdered;
    var i := 0;
    while i < |es| - 2
      invariant 0 <= i <= |es| - 2
      invariant vertOrdered == st.vertOrdered + FanPrefix(vs, i)
      invariant texOrdered == st.texOrdered + FanPrefix(ts, i)
    {
      vertOrdered, texOrdered := EmitFanTriangle(vertOrdered, texOrdered, es, st, vBase, i);
      i := i + 1;
    }
    FanUnfold(vs);
    FanUnfold(ts);
  }

  /** One pass of the fan loop: entries 0, i + 1 and i + 2 pushed to both lists, triangle i of the fan. */
  method EmitFanTriangle(vo: seq<Vec4>, to: seq<Vec2>, es: seq<FaceEntry>, st: ObjState, vBase: int, i: nat)
    returns (vo': seq<Vec4>, to': seq<Vec2>)
    requires i + 2 < |es| && AllInRange(es, st, vBase)
    requires vo == st.vertOrdered + FanPrefix(GatherVerts(es, st, vBase), i)
    requires to == st.texOrdered + FanPrefix(GatherTex(es, st, vBase), i)
    ensures vo' == st.vertOrdered + FanPrefix(GatherVerts(es, st, vBase), i + 1)
    ensures to' == st.texOrdered + FanPrefix(GatherTex(es, st, vBase), i + 1)
  {
    vo', to' := PushEntry(vo, to, es, 0, st, vBase);
    vo', to' := PushEntry(vo', to', es, i + 1, st, vBase);
    vo', to' := PushEntry(vo', to', es, i + 2, st, vBase);
    FanGrows(st.vertOrdered, GatherVerts(es, st, vBase), i, vo);
    FanGrows(st.texOrdered, GatherTex(es, st, vBase), i, to);
  }

  /** Appending entries 0, i + 1 and i + 2 one by one extends the fan by triangle i. */
  lemma FanGrows<T>(base: seq<T>, xs: seq<T>, i: nat, acc: seq<T>)
    requires i + 2 < |xs| && acc == base + FanPrefix(xs, i)
    ensures acc + [xs[0]] + [xs[i + 1]] + [xs[i + 2]] == base + FanPrefix(xs, i + 1)
  {
    Append3(acc, xs[0], xs[i + 1], xs[i + 2]);
    AppendAssoc(base, FanPrefix(xs, i), FanTriangle(xs, i));
  }

  /** Entry k of a face: `vertTemp.items[vi]` and `texTemp.items[ti - 1]` pushed. */
  method PushEntry(vo: seq<Vec4>, to: seq<Vec2>, es: seq<FaceEntry>, k: nat, st: ObjState, vBase: int)
    returns (vo': seq<Vec4>, to': seq<Vec2>)
    requires k < |es| && AllInRange(es, st, vBase)
    ensures vo' == vo + [GatherVerts(es, st, vBase)[k]]
    ensures to' == to + [GatherTex(es, st, vBase)[k]]
  {
    var e := es[k];
    vo' := vo + [st.vertTemp[e.vi - vBase]];
    to' := to + [st.texTemp[e.ti - 1]];
  }

  /**
   * The end of readFile: `vertices` and `tex_coords` take the ordered
   * lists, but `num_vertices` and `num_tex_coords` are not updated, so the
   * counters main passes on are still 0.
   */
  method InstallObj(m: Mesh, st: ObjState)
    requires m.Valid() && m.numVertices == 0 && m.numTexCoords == 0
    modifies m
    ensures m.Valid() && fresh(m.vertices) && fresh(m.texCoords)
    ensures m.vertices[..] == st.vertOrdered && m.texCoords[..] == st.texOrdered
    ensures m.numVertices == 0 && m.numTexCoords == 0
    ensures m.Vertices() == [] && m.TexCoords() == []
    ensures m.colors == old(m.colors) && m.numColors == old(m.numColors)
  {
    m.vertices := new Vec4[|st.vertOrdered|](i requires 0 <= i < |st.vertOrdered| => st.vertOrdered[i]);
    m.texCoords := new Vec2[|st.texOrdered|](i requires 0 <= i < |st.texOrdered| => st.texOrdered[i]);
  }

  // ---------------------------------------------------------------------------
  // The vertex index base

  /** A triangle: three `v` lines, three `vt` lines and the face `f 1/1 2/2 3/3`. */
  function TriangleFile(): seq<ObjLine> {
    [VertexLine(0.0, 0.0, 0.0), VertexLine(1.0, 0.0, 0.0), VertexLine(0.0, 1.0, 0.0),
     TexLine(0.0, 0.0), TexLine(1.0, 0.0), TexLine(0.0, 1.0),
     FaceLine([FaceEntry(1, 1), FaceEntry(2, 2), FaceEntry(3, 3)])]
  }

  /** Reading one more line. */
  lemma ReadObjSnoc(lines: seq<ObjLine>, line: ObjLine, vBase: int)
    ensures ReadObj(lines + [line], vBase)
         == if ReadObj(lines, vBase).Loaded? then Step(ReadObj(lines, vBase).st, line, |lines|, vBase)
            else ReadObj(lines, vBase)
  {
    assert (lines + [line])[..|lines|] == lines;
  }

  const V0: Vec4 := Vec4(0.0, 0.0, 0.0, 1.0)
  const V1: Vec4 := Vec4(1.0, 0.0, 0.0, 1.0)
  const V2: Vec4 := Vec4(0.0, 1.0, 0.0, 1.0)

  /** The six raw lines of TriangleFile, read under either base, give three vertices and three texture coordinates. */
  lemma TriangleFileRaw(vBase: int)
    ensures ReadObj(TriangleFile()[..6], vBase)
         == Loaded(ObjState([V0, V1, V2], [Vec2(0.0, 1.0), Vec2(1.0, 1.0), Vec2(0.0, 0.0)], [], []))
  {
    var f := TriangleFile();
    var l0: seq<ObjLine> := [];
    var l1 := l0 + [f[0]];
    var l2 := l1 + [f[1]];
    var l3 := l2 + [f[2]];
    var l4 := l3 + [f[3]];
    var l5 := l4 + [f[4]];
    var l6 := l5 + [f[5]];
    assert f[..6] == l6;
    ReadObjSnoc(l0, f[0], vBase);
    ReadObjSnoc(l1, f[1], vBase);
    ReadObjSnoc(l2, f[2], vBase);
    ReadObjSnoc(l3, f[3], vBase);
    ReadObjSnoc(l4, f[4], vBase);
    ReadObjSnoc(l5, f[5], vBase);
  }

  /** As written, the face's last index 3 looks past the three vertices read. */
  lemma TriangleFileAsWritten()
    ensures ReadObj(TriangleFile(), AsWrittenBase) == Undefined(6)
  {
    var f := TriangleFile();
    TriangleFileRaw(AsWrittenBase);
    assert f == f[..6] + [f[6]];
    ReadObjSnoc(f[..6], f[6], AsWrittenBase);
    assert !EntryInRange(f[6].entries[2], ReadObj(f[..6], AsWrittenBase).st, AsWrittenBase);
  }

  /** With 1-based vertex indices the face is the triangle of the three vertices, in order. */
  lemma TriangleFileCorrected()
    ensures ReadObj(TriangleFile(), ObjBase).Loaded?
    ensures ReadObj(TriangleFile(), ObjBase).st.vertOrdered == [V0, V1, V2]
    ensures ReadObj(TriangleFile(), ObjBase).st.texOrdered == [Vec2(0.0, 1.0), Vec2(1.0, 1.0), Vec2(0.0, 0.0)]
  {
    var f := TriangleFile();
    TriangleFileRaw(ObjBase);
    assert f == f[..6] + [f[6]];
    ReadObjSnoc(f[..6], f[6], ObjBase);
    var st := ReadObj(f[..6], ObjBase).st;
    var es := f[6].entries;
    assert AllInRange(es, st, ObjBase);
    AppendedFanLayout(st.vertOrdered, GatherVerts(es, st, ObjBase), 0);
    AppendedFanLayout(st.texOrdered, GatherTex(es, st, ObjBase), 0);
  }

  /**
   * With 1-based indices every vertex read so far can be named: index k
   * (1 <= k <= number of `v` lines) is in range and selects the k-th `v`
   * line; as written, index k selects line k + 1 and the last vertex cannot
   * be named.
   */
  lemma ObjIndicesInRange(st: ObjState, k: int, ti: int)
    requires 1 <= k <= |st.vertTemp| && 1 <= ti <= |st.texTemp|
    ensures EntryInRange(FaceEntry(k, ti), st, ObjBase)
    ensures k == |st.vertTemp| ==> !EntryInRange(FaceEntry(k, ti), st, AsWrittenBase)
  {
  }

  // ---------------------------------------------------------------------------
  // centerScale: the bounds scan

  /** minx, maxx, miny, maxy, minz, maxz. */
  datatype Bounds = Bounds(minX: real, maxX: real, minY: real, maxY: real, minZ: real, maxZ: real)

  /** The bounds start at 0, not at the first vertex. */
  const Origin: Bounds := Bounds(0.0, 0.0, 0.0, 0.0, 0.0, 0.0)

  /** One step of the scan: each bound replaced by the vertex's coordinate when it lies beyond it. */
  function Widen(b: Bounds, v: Vec4): Bounds {
    Bounds(if v.x < b.minX then v.x else b.minX, if v.x > b.maxX then v.x else b.maxX,
           if v.y < b.minY then v.y else b.minY, if v.y > b.maxY then v.y else b.maxY,
           if v.z < b.minZ then v.z else b.minZ, if v.z > b.maxZ then v.z else b.maxZ)
  }

  /** The bounds after scanning vs in order. */
  function Scan(vs: seq<Vec4>): Bounds
    decreases |vs|
  {
    if |vs| == 0 then Origin else Widen(Scan(vs[..|vs| - 1]), vs[|vs| - 1])
  }

  predicate Contains(b: Bounds, v: Vec4) {
    b.minX <= v.x <= b.maxX && b.minY <= v.y <= b.maxY && b.minZ <= v.z <= b.maxZ
  }

  /** Every bound is 0 or a coordinate of some vertex: the box is no larger than needed. */
  predicate Attained(b: Bounds, vs: seq<Vec4>) {
    && (b.minX == 0.0 || exists k :: 0 <= k < |vs| && vs[k].x == b.minX)
    && (b.maxX == 0.0 || exists k :: 0 <= k < |vs| && vs[k].x == b.maxX)
    && (b.minY == 0.0 || exists k :: 0 <= k < |vs| && vs[k].y == b.minY)
    && (b.maxY == 0.0 || exists k :: 0 <= k < |vs| && vs[k].y == b.maxY)
    && (b.minZ == 0.0 || exists k :: 0 <= k < |vs| && vs[k].z == b.minZ)
    && (b.maxZ == 0.0 || exists k :: 0 <= k < |vs| && vs[k].z == b.maxZ)
  }

  /** The box always contains the origin. */
  lemma {:induction false} ScanContainsOrigin(vs: seq<Vec4>)
    ensures Contains(Scan(vs), Vec4(0.0, 0.0, 0.0, 1.0))
    decreases |vs|
  {
    if |vs| > 0 {
      ScanContainsOrigin(vs[..|vs| - 1]);
    }
  }

  /** The box contains every vertex scanned. */
  lemma {:induction false} ScanContains(vs: seq<Vec4>, k: nat)
    requires k < |vs|
    ensures Contains(Scan(vs), vs[k])
    decreases |vs|
  {
    var front := vs[..|vs| - 1];
    if k < |front| {
      ScanContains(front, k);
      assert front[k] == vs[k];
    }
  }

  /** Every bound other than 0 is a coordinate of a vertex. */
  lemma {:induction false} ScanAttained(vs: seq<Vec4>)
    ensures Attained(Scan(vs), vs)
    decreases |vs|
  {
    if |vs| > 0 {
      var front := vs[..|vs| - 1];
      ScanAttained(front);
      forall k | 0 <= k < |front|
        ensures vs[k] == front[k]
      {
      }
    }
  }

  /** Lines 423-434: the scan over the vertices written so far. */
  method BoundsScan(m: Mesh) returns (b: Bounds)
    requires m.Valid()
    ensures b == Scan(m.Vertices())
  {
    var minx, maxx, miny, maxy, minz, maxz := 0.0, 0.0, 0.0, 0.0, 0.0, 0.0;
    var i := 0;
    while i < m.numVertices
      invariant 0 <= i <= m.numVertices
      invariant Bounds(minx, maxx, miny, maxy, minz, maxz) == Scan(m.vertices[..i])
    {
      var v := m.vertices[i];
      assert m.vertices[..i + 1][..i] == m.vertices[..i];
      minx := if v.x < minx then v.x else minx;
      maxx := if v.x > maxx then v.x else maxx;
      miny := if v.y < miny then v.y else miny;
      maxy := if v.y > maxy then v.y else maxy;
      minz := if v.z < minz then v.z else minz;
      maxz := if v.z > maxz then v.z else maxz;
      i := i + 1;
    }
    b := Bounds(minx, maxx, miny, maxy, minz, maxz);
  }

  // ---------------------------------------------------------------------------
  // centerScale: the centre and the scale factor

  /** Line 437: the midpoint of the box, as a point. */
  function Center(b: Bounds): Vec4 {
    Vec4((b.maxX + b.minX) / 2.0, (b.maxY + b.minY) / 2.0, (b.maxZ + b.minZ) / 2.0, 1.0)
  }

  /** `2 / scaleFactor`: a real number, or the infinity a float division by zero gives. */
  datatype Factor = Finite(s: real) | Infinite

  /** The if-chain of lines 447-451: the largest of the three ranges. */
  function Largest(x: real, y: real, z: real): (r: real)
    ensures r >= x && r >= y && r >= z
    ensures r == x || r == y || r == z
  {
    var s := if y > x then y else x;
    if z > s then z else s
  }

  /** The absolute value of a real. */
  function Abs(r: real): real {
    if r < 0.0 then -r else r
  }

  /**
   * C's `abs` takes an int, so a float argument is first truncated toward
   * zero: the result is the whole part of the absolute value.
   */
  function IntAbs(r: real): (a: int)
    ensures 0 <= a && a as real <= Abs(r) < a as real + 1.0
  {
    Abs(r).Floor
  }

  /** 2 divided by the largest range. */
  function Reciprocal(largest: real): Factor {
    if largest == 0.0 then Infinite else Finite(2.0 / largest)
  }

  /** Lines 443-453 as written: each range goes through the integer `abs`. */
  function ScaleFactorAsWritten(b: Bounds): Factor {
    Reciprocal(Largest(IntAbs(b.maxX - b.minX) as real, IntAbs(b.maxY - b.minY) as real, IntAbs(b.maxZ - b.minZ) as real))
  }

  /** Lines 443-453 with the absolute value taken of the float range itself. */
  function ScaleFactor(b: Bounds): Factor {
    Reciprocal(Largest(Abs(b.maxX - b.minX), Abs(b.maxY - b.minY), Abs(b.maxZ - b.minZ)))
  }

  /**
   * scale(s, s, s) times translate(-c) applied to v: v moved by -c (in
   * proportion to its w) and its x, y and z scaled by s.
   */
  function Placed(c: Vec4, s: real, v: Vec4): Vec4 {
    Vec4(PlaceAxis(s, c.x, v.x, v.w), PlaceAxis(s, c.y, v.y, v.w), PlaceAxis(s, c.z, v.z, v.w), v.w)
  }

  /** One coordinate of Placed: x moved by -c (times w) and scaled by s. */
  function PlaceAxis(s: real, c: real, x: real, w: real): real {
    s * (x - c * w)
  }

  /**
   * `place(c, f)` is the transform tr of lines 456-458 for centre c and
   * scale factor f; the matrix library computes it, and for a finite
   * factor it is Placed.
   */
  ghost predicate IsPlacement(place: (Vec4, Factor) -> (Vec4 -> Vec4)) {
    forall c: Vec4, s: real, v: Vec4 :: place(c, Finite(s))(v) == Placed(c, s, v)
  }

  /** A point inside the cube [-1, 1]³ that the view shows. */
  predicate InView(v: Vec4) {
    -1.0 <= v.x <= 1.0 && -1.0 <= v.y <= 1.0 && -1.0 <= v.z <= 1.0
  }

  /**
   * As written, a range of 1.5 counts as 1: the point (1.5, 0, 0) is
   * scaled by 2 instead of 4/3 and lands at x = 1.5, outside the view.
   */
  lemma CenterScaleAsWritten()
    ensures ScaleFactorAsWritten(Scan([Vec4(1.5, 0.0, 0.0, 1.0)])) == Finite(2.0)
    ensures Placed(Center(Scan([Vec4(1.5, 0.0, 0.0, 1.0)])), 2.0, Vec4(1.5, 0.0, 0.0, 1.0)).x == 1.5
    ensures !InView(Placed(Center(Scan([Vec4(1.5, 0.0, 0.0, 1.0)])), 2.0, Vec4(1.5, 0.0, 0.0, 1.0)))
  {
    var v := Vec4(1.5, 0.0, 0.0, 1.0);
    ScanOne(v);
    assert Scan([v]) == Bounds(0.0, 1.5, 0.0, 0.0, 0.0, 0.0);
    WideBoxFactors();
    WideBoxPlacement();
  }

  /** The corrected factor for the same model is 2 / 1.5, not 2. */
  lemma CenterScaleCorrectsWide()
    ensures ScaleFactor(Scan([Vec4(1.5, 0.0, 0.0, 1.0)])) == Finite(2.0 / 1.5)
  {
    var v := Vec4(1.5, 0.0, 0.0, 1.0);
    ScanOne(v);
    assert Scan([v]) == Bounds(0.0, 1.5, 0.0, 0.0, 0.0, 0.0);
    WideBoxFactors();
  }

  /** The two factors of the box spanned by the origin and (1.5, 0, 0). */
  lemma WideBoxFactors()
    ensures var b := Bounds(0.0, 1.5, 0.0, 0.0, 0.0, 0.0);
      ScaleFactorAsWritten(b) == Finite(2.0) && ScaleFactor(b) == Finite(2.0 / 1.5)
  {
    var b := Bounds(0.0, 1.5, 0.0, 0.0, 0.0, 0.0);
    TruncatedRanges();
    assert ScaleFactorAsWritten(b) == Reciprocal(1.0);
    assert ScaleFactor(b) == Reciprocal(1.5);
  }

  /** Scaling that box by 2 leaves the point at x = 1.5. */
  lemma WideBoxPlacement()
    ensures Placed(Center(Bounds(0.0, 1.5, 0.0, 0.0, 0.0, 0.0)), 2.0, Vec4(1.5, 0.0, 0.0, 1.0)).x == 1.5
  {
    assert Center(Bounds(0.0, 1.5, 0.0, 0.0, 0.0, 0.0)) == Vec4(0.75, 0.0, 0.0, 1.0);
    assert PlaceAxis(2.0, 0.75, 1.5, 1.0) == 1.5;
  }

  /**
   * As written, a box whose sides are all shorter than 1 makes every range
   * 0, and 2 is divided by 0: the unit-cube corner (0.5, 0.5, 0.5) gets an
   * infinite factor instead of 4.
   */
  lemma CenterScaleDividesByZero()
    ensures var vs := [Vec4(0.5, 0.5, 0.5, 1.0)];
      && ScaleFactorAsWritten(Scan(vs)) == Infinite
      && ScaleFactor(Scan(vs)) == Finite(4.0)
  {
    var u := Vec4(0.5, 0.5, 0.5, 1.0);
    var e := Bounds(0.0, 0.5, 0.0, 0.5, 0.0, 0.5);
    assert Scan([u]) == e by { ScanOne(u); }
    assert ScaleFactorAsWritten(e) == Infinite by {
      TruncatedRanges();
      assert ScaleFactorAsWritten(e) == Reciprocal(0.0);
    }
    assert ScaleFactor(e) == Reciprocal(0.5);
  }

  /** The integer abs of the ranges in the two examples. */
  lemma TruncatedRanges()
    ensures IntAbs(1.5) == 1 && IntAbs(0.5) == 0 && IntAbs(0.0) == 0
  {
  }

  /** The bounds of a single vertex: the box spanned by it and the origin. */
  lemma ScanOne(v: Vec4)
    ensures Scan([v]) == Widen(Origin, v)
  {
    assert [v][..0] == [];
  }

  /**
   * With the real absolute value, every point scanned (w = 1) is placed
   * inside the view, unless every range is 0 and the factor is infinite.
   */
  lemma CenterScaleFits(vs: seq<Vec4>, k: nat)
    requires k < |vs| && vs[k].w == 1.0
    ensures ScaleFactor(Scan(vs)).Infinite? <==> Scan(vs) == Origin
    ensures ScaleFactor(Scan(vs)).Finite? ==> InView(Placed(Center(Scan(vs)), ScaleFactor(Scan(vs)).s, vs[k]))
  {
    ScanContains(vs, k);
    ScanContainsOrigin(vs);
    BoxFits(Scan(vs), vs[k]);
  }

  /** A point of a box around the origin is placed inside the view, unless the box is the origin itself. */
  lemma BoxFits(b: Bounds, v: Vec4)
    requires Contains(b, Vec4(0.0, 0.0, 0.0, 1.0)) && Contains(b, v) && v.w == 1.0
    ensures ScaleFactor(b).Infinite? <==> b == Origin
    ensures ScaleFactor(b).Finite? ==> InView(Placed(Center(b), ScaleFactor(b).s, v))
  {
    FactorOfBox(b);
    if ScaleFactor(b).Finite? {
      var r := Largest(Abs(b.maxX - b.minX), Abs(b.maxY - b.minY), Abs(b.maxZ - b.minZ));
      var s, c := ScaleFactor(b).s, Center(b);
      var p := Placed(c, s, v);
      AxisFits(b.minX, b.maxX, v.x, v.w, c.x, p.x, r, s);
      AxisFits(b.minY, b.maxY, v.y, v.w, c.y, p.y, r, s);
      AxisFits(b.minZ, b.maxZ, v.z, v.w, c.z, p.z, r, s);
    }
  }

  /** For a box around the origin the factor is infinite exactly when the box is the origin itself, and otherwise 2 over a positive range no smaller than any side. */
  lemma FactorOfBox(b: Bounds)
    requires b.minX <= 0.0 <= b.maxX && b.minY <= 0.0 <= b.maxY && b.minZ <= 0.0 <= b.maxZ
    ensures ScaleFactor(b).Infinite? <==> b == Origin
    ensures var r := Largest(Abs(b.maxX - b.minX), Abs(b.maxY - b.minY), Abs(b.maxZ - b.minZ));
      ScaleFactor(b).Finite? ==>
        (0.0 < r && ScaleFactor(b) == Finite(2.0 / r) && b.maxX - b.minX <= r && b.maxY - b.minY <= r && b.maxZ - b.minZ <= r)
  {
  }

  /**
   * A coordinate between lo and hi, moved by their midpoint and scaled by
   * 2 / r with r no smaller than hi - lo, stays in [-1, 1].
   */
  lemma AxisFits(lo: real, hi: real, x: real, w: real, c: real, p: real, r: real, s: real)
    requires lo <= x <= hi && hi - lo <= r && 0.0 < r && s == 2.0 / r && w == 1.0
    requires c == (hi + lo) / 2.0 && p == PlaceAxis(s, c, x, w)
    ensures -1.0 <= p <= 1.0
  {
    var d := x - c;
    assert c * w == c;
    assert p == s * d;
    assert -r / 2.0 <= d <= r / 2.0;
    assert s > 0.0;
    assert s * r == 2.0;
    assert s * d <= s * (r / 2.0) == 1.0;
    assert s * d >= s * (-r / 2.0) == -1.0;
  }

  /**
   * Which absolute value the three ranges go through: C's integer `abs`, as
   * lines 443-445 call it, or the absolute value of the float itself.
   */
  datatype AbsKind = IntegerAbs | RealAbs

  /** The factor of lines 443-453 with the chosen absolute value. */
  function FactorWith(abs: AbsKind, b: Bounds): Factor {
    match abs
    case IntegerAbs => ScaleFactorAsWritten(b)
    case RealAbs => ScaleFactor(b)
  }

  /**
   * As written, the factor is finite only where the corrected one is, and
   * then it is never smaller: truncated ranges can only scale the model up.
   */
  lemma AsWrittenOverscales(b: Bounds)
    ensures ScaleFactorAsWritten(b).Finite? ==>
      ScaleFactor(b).Finite? && ScaleFactorAsWritten(b).s >= ScaleFactor(b).s > 0.0
  {
    var dx, dy, dz := b.maxX - b.minX, b.maxY - b.minY, b.maxZ - b.minZ;
    TruncationBelow(dx);
    TruncationBelow(dy);
    TruncationBelow(dz);
    var t := Largest(IntAbs(dx) as real, IntAbs(dy) as real, IntAbs(dz) as real);
    var r := Largest(Abs(dx), Abs(dy), Abs(dz));
    assert 0.0 <= t <= r;
    if t != 0.0 {
      ReciprocalShrinks(t, r);
    }
  }

  /** The integer abs of a real lies between 0 and its absolute value. */
  lemma TruncationBelow(r: real)
    ensures 0.0 <= IntAbs(r) as real <= Abs(r)
  {
  }

  /** 2 / t is at least 2 / r for 0 < t <= r. */
  lemma ReciprocalShrinks(t: real, r: real)
    requires 0.0 < t <= r
    ensures 2.0 / t >= 2.0 / r > 0.0
  {
    assert (2.0 / t) * t == 2.0 && (2.0 / r) * r == 2.0;
    assert (2.0 / r) * t <= (2.0 / r) * r;
  }

  /**
   * centerScale: the bounds scan, then every vertex moved by the transform
   * built from the box's centre and scale factor.  `place` stands for the
   * matrix library's scale-after-translate product and `abs` for the
   * absolute value taken of the ranges: IntegerAbs is the program,
   * RealAbs the evidently intended one.  With RealAbs every vertex with
   * w = 1 ends up inside the view volume unless the whole model sits at
   * the origin; with IntegerAbs it need not (CenterScaleAsWritten).
   */
  method CenterScale(m: Mesh, place: (Vec4, Factor) -> (Vec4 -> Vec4), abs: AbsKind)
    requires m.Valid() && IsPlacement(place)
    modifies m.vertices
    ensures m.Valid()
    ensures var b := Scan(old(m.Vertices()));
      m.Vertices() == MapVec(place(Center(b), FactorWith(abs, b)), old(m.Vertices()))
    ensures var vs := old(m.Vertices());
      abs == RealAbs && ScaleFactor(Scan(vs)).Finite? ==>
        forall k :: 0 <= k < |vs| && vs[k].w == 1.0 ==> InView(m.Vertices()[k])
  {
    var b := BoundsScan(m);
    var center := Center(b);
    var scaleFactor := FactorWith(abs, b);
    ghost var vs := m.Vertices();
    m.TransformVertices(place(center, scaleFactor));
    if abs == RealAbs && scaleFactor.Finite? {
      forall k | 0 <= k < |vs| && vs[k].w == 1.0
        ensures InView(m.Vertices()[k])
      {
        CenterScaleFits(vs, k);
      }
    }
  }
}
