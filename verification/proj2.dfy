/**
 * proj2/proj2.c: loading a PLY polygon file (readFile), texture coordinates
 * for the test sphere, the trackball's current point (setCurPoint) and the
 * state the mouse, keyboard and idle callbacks change.
 *
 * readFile reads an ASCII header line by line up to `end_header`, then a
 * binary body: the vertices (with colour bytes when the header names a
 * `red` property), one list of vertex indices per face, and, for a file
 * without colours, the texture coordinates and one list of texture indices
 * per face.  The model receives the header lines with the integer sscanf
 * finds in their third token, and the body already decoded by fread.
 */
module Proj2 {
  import opened Vec
  import opened Mesh
  import Sphere

  datatype Option<T> = None | Some(value: T)

  // ---------------------------------------------------------------------------
  // strstr

  /** pat appears in s starting at position i. */
  predicate OccursAt(s: string, pat: string, i: int) {
    0 <= i <= |s| - |pat| && s[i..i + |pat|] == pat
  }

  /** strstr(s, pat) != NULL, by scanning s from the front. */
  function Occurs(s: string, pat: string): (b: bool)
    ensures b <==> exists i :: OccursAt(s, pat, i)
    decreases |s|
  {
    if |s| < |pat| then false
    else if s[..|pat|] == pat then assert OccursAt(s, pat, 0); true
    else
      ShiftOccurrence(s, pat);
      Occurs(s[1..], pat)
  }

  /** pat occurs in s, not at the front, exactly when it occurs in s[1..]. */
  lemma ShiftOccurrence(s: string, pat: string)
    requires |pat| <= |s| && s[..|pat|] != pat
    ensures (exists i :: OccursAt(s, pat, i)) <==> (exists i :: OccursAt(s[1..], pat, i))
  {
    if i :| OccursAt(s, pat, i) {
      assert i != 0;
      assert s[1..][i - 1..i - 1 + |pat|] == s[i..i + |pat|];
      assert OccursAt(s[1..], pat, i - 1);
    }
    if i :| OccursAt(s[1..], pat, i) {
      assert s[i + 1..i + 1 + |pat|] == s[1..][i..i + |pat|];
      assert OccursAt(s, pat, i + 1);
    }
  }

  // ---------------------------------------------------------------------------
  // The header

  /** A header line and the integer `sscanf(buff, "%*s %*s %d", ...)` converts, if any. */
  datatype HeaderLine = HeaderLine(text: string, third: Option<int>)

  /** numFileVerts, faces, numFileTexVerts and hasColors. */
  datatype Header = Header(numFileVerts: int, faces: int, numFileTexVerts: int, hasColors: bool)

  /** The counts start at 0 and hasColors at false. */
  const NoHeader: Header := Header(0, 0, 0, false)

  const EndHeader: string := "end_header\n"

  /** The count a sscanf on this line stores into a variable holding old. */
  function Third(line: HeaderLine, old_: int): int {
    if line.third.Some? then line.third.value else old_
  }

  /** Lines 133-168: what one header line sets. */
  function Absorb(h: Header, line: HeaderLine): Header {
    Header(if Occurs(line.text, " vertex ") then Third(line, h.numFileVerts) else h.numFileVerts,
           if Occurs(line.text, " face ") then Third(line, h.faces) else h.faces,
           if Occurs(line.text, " multi_texture_vertex ") then Third(line, h.numFileTexVerts) else h.numFileTexVerts,
           h.hasColors || Occurs(line.text, " red"))
  }

  /** The header read and the number of lines it took. */
  datatype HeaderEnd = HeaderEnd(header: Header, count: nat)

  /**
   * Reading header lines from h on: every line is absorbed, up to and
   * including the first one containing `end_header\n`.  Without such a
   * line the loop never ends (None).
   */
  function ScanHeader(lines: seq<HeaderLine>, h: Header): (r: Option<HeaderEnd>)
    ensures r.Some? ==> 1 <= r.value.count <= |lines|
    decreases |lines|
  {
    if |lines| == 0 then None
    else
      var h' := Absorb(h, lines[0]);
      if Occurs(lines[0].text, EndHeader) then Some(HeaderEnd(h', 1))
      else
        match ScanHeader(lines[1..], h')
        case None => None
        case Some(e) => Some(HeaderEnd(e.header, e.count + 1))
  }

  /**
   * Lines 127-170: the header loop.  The buffer is taken not to hold
   * `end_header\n` before the first line is read.
   */
  method ReadHeader(lines: seq<HeaderLine>) returns (r: Option<HeaderEnd>)
    ensures r == ScanHeader(lines, NoHeader)
  {
    var h := NoHeader;
    var i := 0;
    var found := false;
    while !found
      invariant 0 <= i <= |lines|
      invariant found ==> i > 0 && ScanHeader(lines, NoHeader) == Some(HeaderEnd(h, i))
      invariant !found ==> ScanHeader(lines, NoHeader) == Shift(ScanHeader(lines[i..], h), i)
      decreases |lines| - i, !found
    {
      if i == |lines| {
        return None;
      }
      var line := lines[i];
      assert lines[i..][1..] == lines[i + 1..];
      h := Absorb(h, line);
      i := i + 1;
      found := Occurs(line.text, EndHeader);
    }
    r := Some(HeaderEnd(h, i));
  }

  /** A scan result moved k lines further down the file. */
  function Shift(r: Option<HeaderEnd>, k: nat): Option<HeaderEnd> {
    match r
    case None => None
    case Some(e) => Some(HeaderEnd(e.header, e.count + k))
  }

  /**
   * The scan ends exactly at the first line containing `end_header\n`, and
   * runs out of lines exactly when there is none.
   */
  lemma {:induction false} HeaderEndsAtFirst(lines: seq<HeaderLine>, h: Header)
    ensures ScanHeader(lines, h).None? <==> forall j :: 0 <= j < |lines| ==> !Occurs(lines[j].text, EndHeader)
    ensures ScanHeader(lines, h).Some? ==>
      var k := ScanHeader(lines, h).value.count;
      && 1 <= k <= |lines| && Occurs(lines[k - 1].text, EndHeader)
      && forall j :: 0 <= j < k - 1 ==> !Occurs(lines[j].text, EndHeader)
    decreases |lines|
  {
    if |lines| > 0 && !Occurs(lines[0].text, EndHeader) {
      var tail := lines[1..];
      HeaderEndsAtFirst(tail, Absorb(h, lines[0]));
      assert ScanHeader(lines, h) == Shift(ScanHeader(tail, Absorb(h, lines[0])), 1);
      forall j | 0 < j < |lines|
        ensures lines[j] == tail[j - 1]
      {
      }
    }
  }

  /** hasColors ends true exactly when it started true or a header line contains " red". */
  lemma {:induction false} HasColorsFromRed(lines: seq<HeaderLine>, h: Header)
    requires ScanHeader(lines, h).Some?
    ensures var e := ScanHeader(lines, h).value;
      e.header.hasColors <==> h.hasColors || exists j :: 0 <= j < e.count && Occurs(lines[j].text, " red")
    decreases |lines|
  {
    if !Occurs(lines[0].text, EndHeader) {
      HasColorsFromRed(lines[1..], Absorb(h, lines[0]));
      forall j | 0 < j < |lines|
        ensures lines[j] == lines[1..][j - 1]
      {
      }
    }
  }

  /** Whether a header line stores into the count named by key: it contains key and sscanf converts a third token. */
  predicate Sets(line: HeaderLine, key: string) {
    Occurs(line.text, key) && line.third.Some?
  }

  /**
   * The third token of the last line that sets the count named by key, or
   * init when no line does.
   */
  function LastThird(lines: seq<HeaderLine>, key: string, init: int): int
    decreases |lines|
  {
    if |lines| == 0 then init
    else if Sets(lines[|lines| - 1], key) then lines[|lines| - 1].third.value
    else LastThird(lines[..|lines| - 1], key, init)
  }

  /**
   * LastThird means what its name says: either no line sets the count and
   * the result is init, or some line j sets it to the result and no later
   * line sets it again.
   */
  lemma {:induction false} LastThirdIsLast(lines: seq<HeaderLine>, key: string, init: int)
    ensures var r := LastThird(lines, key, init);
      || (r == init && forall j :: 0 <= j < |lines| ==> !Sets(lines[j], key))
      || exists j :: 0 <= j < |lines| && Sets(lines[j], key) && lines[j].third == Some(r)
           && forall j' :: j < j' < |lines| ==> !Sets(lines[j'], key)
    decreases |lines|
  {
    if |lines| > 0 && !Sets(lines[|lines| - 1], key) {
      var front := lines[..|lines| - 1];
      LastThirdIsLast(front, key, init);
      forall j | 0 <= j < |front|
        ensures lines[j] == front[j]
      {
      }
    }
  }

  /** Reading the first line before the rest: the rest starts from what the first line stored. */
  lemma {:induction false} LastThirdCons(line: HeaderLine, rest: seq<HeaderLine>, key: string, init: int)
    ensures LastThird([line] + rest, key, init)
         == LastThird(rest, key, if Sets(line, key) then line.third.value else init)
    decreases |rest|
  {
    var all := [line] + rest;
    if |rest| > 0 && !Sets(rest[|rest| - 1], key) {
      assert all[..|all| - 1] == [line] + rest[..|rest| - 1];
      LastThirdCons(line, rest[..|rest| - 1], key, init);
    }
  }

  /**
   * Every count is overwritten by each line that sets it (lines 135-162),
   * so each ends as the third token of the last header line containing
   * " vertex ", " face " or " multi_texture_vertex " respectively, or
   * keeps its starting value.
   */
  lemma {:induction false} CountsFromLines(lines: seq<HeaderLine>, h: Header)
    requires ScanHeader(lines, h).Some?
    ensures var e := ScanHeader(lines, h).value;
      && e.header.numFileVerts == LastThird(lines[..e.count], " vertex ", h.numFileVerts)
      && e.header.faces == LastThird(lines[..e.count], " face ", h.faces)
      && e.header.numFileTexVerts == LastThird(lines[..e.count], " multi_texture_vertex ", h.numFileTexVerts)
    decreases |lines|
  {
    var e := ScanHeader(lines, h).value;
    var h' := Absorb(h, lines[0]);
    var rest: seq<HeaderLine>;
    if Occurs(lines[0].text, EndHeader) {
      rest := [];
      assert lines[..e.count] == [lines[0]] + rest;
    } else {
      var tail := lines[1..];
      CountsFromLines(tail, h');
      var e' := ScanHeader(tail, h').value;
      rest := tail[..e'.count];
      assert lines[..e.count] == [lines[0]] + rest;
    }
    LastThirdCons(lines[0], rest, " vertex ", h.numFileVerts);
    LastThirdCons(lines[0], rest, " face ", h.faces);
    LastThirdCons(lines[0], rest, " multi_texture_vertex ", h.numFileTexVerts);
  }

  // ---------------------------------------------------------------------------
  // The body: vertices and colours

  newtype byte = b: int | 0 <= b < 256

  /** One vertex record: three floats, then three colour bytes when the file has colours. */
  datatype PlyVertex = PlyVertex(x: real, y: real, z: real, r: byte, g: byte, b: byte)

  /** Colour bytes scaled from [0, 255] to [0.0, 1.0]. */
  function FileColor(p: PlyVertex): (c: Vec4)
    ensures 0.0 <= c.x <= 1.0 && 0.0 <= c.y <= 1.0 && 0.0 <= c.z <= 1.0 && c.w == 1.0
    ensures c.x * 255.0 == p.r as real && c.y * 255.0 == p.g as real && c.z * 255.0 == p.b as real
  {
    Vec4(p.r as real / 255.0, p.g as real / 255.0, p.b as real / 255.0, 1.0)
  }

  /** The position of every vertex record, as a point. */
  function PlyPoints(ply: seq<PlyVertex>): (r: seq<Vec4>)
    ensures |r| == |ply| && forall i :: 0 <= i < |ply| ==> r[i] == Vec4(ply[i].x, ply[i].y, ply[i].z, 1.0)
  {
    seq(|ply|, i requires 0 <= i < |ply| => Vec4(ply[i].x, ply[i].y, ply[i].z, 1.0))
  }

  /** The colour of every vertex record. */
  function PlyColors(ply: seq<PlyVertex>): (r: seq<Vec4>)
    ensures |r| == |ply| && forall i :: 0 <= i < |ply| ==> r[i] == FileColor(ply[i])
  {
    seq(|ply|, i requires 0 <= i < |ply| => FileColor(ply[i]))
  }

  /** Lines 207-235: fileVerts and, when the file has colours, fileColors. */
  method LoadFileVerts(ply: seq<PlyVertex>, hasColors: bool) returns (fileVerts: array<Vec4>, fileColors: array<Vec4>)
    ensures fresh(fileVerts) && fresh(fileColors) && fileVerts[..] == PlyPoints(ply)
    ensures hasColors ==> fileColors[..] == PlyColors(ply)
  {
    fileVerts := new Vec4[|ply|];
    fileColors := new Vec4[if hasColors then |ply| else 0];
    var i := 0;
    while i < |ply|
      invariant 0 <= i <= |ply|
      invariant forall k :: 0 <= k < i ==> fileVerts[k] == Vec4(ply[k].x, ply[k].y, ply[k].z, 1.0)
      invariant hasColors ==> forall k :: 0 <= k < i ==> fileColors[k] == FileColor(ply[k])
    {
      fileVerts[i] := Vec4(ply[i].x, ply[i].y, ply[i].z, 1.0);
      if hasColors {
        fileColors[i] := FileColor(ply[i]);
      }
      i := i + 1;
    }
  }

  // ---------------------------------------------------------------------------
  // Gathering by index

  /** The index lists of all faces, one after another. */
  function Flat(faces: seq<seq<int>>): seq<int>
    decreases |faces|
  {
    if |faces| == 0 then [] else Flat(faces[..|faces| - 1]) + faces[|faces| - 1]
  }

  lemma {:induction false} FlatAppend(a: seq<seq<int>>, b: seq<seq<int>>)
    ensures Flat(a + b) == Flat(a) + Flat(b)
    decreases |b|
  {
    if |b| > 0 {
      assert (a + b)[..|a + b| - 1] == a + b[..|b| - 1];
      FlatAppend(a, b[..|b| - 1]);
    } else {
      assert a + b == a;
    }
  }

  /** The first j indices of face i follow the indices of the faces before it. */
  lemma FlatPrefix(faces: seq<seq<int>>, i: nat, j: nat)
    requires i < |faces| && j <= |faces[i]|
    ensures |Flat(faces[..i])| + j <= |Flat(faces)|
    ensures Flat(faces[..i]) + faces[i][..j] == Flat(faces)[..|Flat(faces[..i])| + j]
  {
    assert faces == faces[..i + 1] + faces[i + 1..];
    FlatAppend(faces[..i + 1], faces[i + 1..]);
    assert faces[..i + 1][..i] == faces[..i];
    assert Flat(faces[..i + 1]) == Flat(faces[..i]) + faces[i];
  }

  /** How a gather loop ends: every index copied, an index >= the table size at `pos` (exit), or an unguarded write or lookup at `pos`. */
  datatype Gathered = Copied | TooLarge(pos: nat) | Undefined(pos: nat)

  /**
   * Walking the indices in order: an index >= n stops the program (the
   * check of lines 257 and 312); a negative index, or an index beyond the
   * cap entries the buffer holds, is neither checked nor safe.
   */
  function GatherCheck(idx: seq<int>, n: int, cap: nat): Gathered
    decreases |idx|
  {
    if |idx| == 0 then Copied
    else
      match GatherCheck(idx[..|idx| - 1], n, cap)
      case Copied =>
        var p := |idx| - 1;
        if idx[p] >= n then TooLarge(p)
        else if idx[p] < 0 || p >= cap then Undefined(p)
        else Copied
      case stop => stop
  }

  /** Every index is copied exactly when all fit the table and the buffer. */
  lemma {:induction false} CopiedIff(idx: seq<int>, n: int, cap: nat)
    ensures GatherCheck(idx, n, cap) == Copied <==> |idx| <= cap && forall k :: 0 <= k < |idx| ==> 0 <= idx[k] < n
    decreases |idx|
  {
    if |idx| > 0 {
      var front := idx[..|idx| - 1];
      CopiedIff(front, n, cap);
      assert forall k :: 0 <= k < |front| ==> front[k] == idx[k];
    }
  }

  /** The program exits at the first index >= n, all indices before it being copied. */
  lemma {:induction false} TooLargeAtFirst(idx: seq<int>, n: int, cap: nat)
    requires GatherCheck(idx, n, cap).TooLarge?
    ensures var p := GatherCheck(idx, n, cap).pos;
      && p < |idx| && p <= cap && idx[p] >= n
      && forall k :: 0 <= k < p ==> 0 <= idx[k] < n
    decreases |idx|
  {
    var front := idx[..|idx| - 1];
    if GatherCheck(front, n, cap).TooLarge? {
      TooLargeAtFirst(front, n, cap);
    } else {
      CopiedIff(front, n, cap);
    }
    assert forall k :: 0 <= k < |front| ==> front[k] == idx[k];
  }

  /** Once a gather has stopped, later indices change nothing. */
  lemma {:induction false} GatherSticky(idx: seq<int>, i: nat, n: int, cap: nat)
    requires i <= |idx| && GatherCheck(idx[..i], n, cap) != Copied
    ensures GatherCheck(idx, n, cap) == GatherCheck(idx[..i], n, cap)
    decreases |idx|
  {
    if i < |idx| {
      var front := idx[..|idx| - 1];
      assert front[..i] == idx[..i];
      GatherSticky(front, i, n, cap);
    } else {
      assert idx[..i] == idx;
    }
  }

  /** `table[index]` for every index in order. */
  function Pick<T>(table: seq<T>, idx: seq<int>): (r: seq<T>)
    requires forall k :: 0 <= k < |idx| ==> 0 <= idx[k] < |table|
    ensures |r| == |idx| && forall k :: 0 <= k < |idx| ==> r[k] == table[idx[k]]
  {
    seq(|idx|, k requires 0 <= k < |idx| => table[idx[k]])
  }

  /** One index further. */
  lemma PickStep<T>(table: seq<T>, idx: seq<int>, k: int)
    requires forall j :: 0 <= j < |idx| ==> 0 <= idx[j] < |table|
    requires 0 <= k < |table|
    ensures Pick(table, idx + [k]) == Pick(table, idx) + [table[k]]
  {
  }

  /** The gather check after one more index, given all before were copied. */
  lemma GatherCheckStep(idx: seq<int>, k: int, n: int, cap: nat)
    requires GatherCheck(idx, n, cap) == Copied
    ensures GatherCheck(idx + [k], n, cap)
         == if k >= n then TooLarge(|idx|) else if k < 0 || |idx| >= cap then Undefined(|idx|) else Copied
  {
    assert (idx + [k])[..|idx|] == idx;
  }

  /** Walking the index lists of all faces: after face i, index j is next. */
  lemma GatherNext(faces: seq<seq<int>>, i: nat, j: nat, n: int, cap: nat)
    requires i < |faces| && j < |faces[i]|
    requires GatherCheck(Flat(faces[..i]) + faces[i][..j], n, cap) == Copied
    requires !GatherCheck(Flat(faces), n, cap).Undefined?
    ensures var done := Flat(faces[..i]) + faces[i][..j];
      var next := GatherCheck(done + [faces[i][j]], n, cap);
      && (next == Copied || next == TooLarge(|done|))
      && (next != Copied ==> GatherCheck(Flat(faces), n, cap) == next)
      && faces[i][..j + 1] == faces[i][..j] + [faces[i][j]]
  {
    var done := Flat(faces[..i]) + faces[i][..j];
    FlatPrefix(faces, i, j + 1);
    assert faces[i][..j + 1] == faces[i][..j] + [faces[i][j]];
    assert Flat(faces[..i]) + faces[i][..j + 1] == done + [faces[i][j]];
    GatherCheckStep(done, faces[i][j], n, cap);
    if GatherCheck(done + [faces[i][j]], n, cap) != Copied {
      GatherSticky(Flat(faces), |done| + 1, n, cap);
    }
  }

  /** An index below n after copied ones is copied too: it is non-negative and fits the buffer. */
  lemma NextCopied(faces: seq<seq<int>>, i: nat, j: nat, n: int, cap: nat)
    requires i < |faces| && j < |faces[i]| && faces[i][j] < n
    requires GatherCheck(Flat(faces[..i]) + faces[i][..j], n, cap) == Copied
    requires !GatherCheck(Flat(faces), n, cap).Undefined?
    ensures 0 <= faces[i][j] && |Flat(faces[..i]) + faces[i][..j]| < cap
    ensures GatherCheck(Flat(faces[..i]) + faces[i][..j + 1], n, cap) == Copied
    ensures Flat(faces[..i]) + faces[i][..j + 1] == (Flat(faces[..i]) + faces[i][..j]) + [faces[i][j]]
  {
    GatherNext(faces, i, j, n, cap);
    assert Flat(faces[..i]) + faces[i][..j + 1] == (Flat(faces[..i]) + faces[i][..j]) + [faces[i][j]];
  }

  /** After the last index of face i come the indices of face i + 1. */
  lemma FaceDone(faces: seq<seq<int>>, i: nat)
    requires i < |faces|
    ensures Flat(faces[..i]) + faces[i][..|faces[i]|] == Flat(faces[..i + 1])
  {
    assert faces[..i + 1][..i] == faces[..i];
    assert faces[i][..|faces[i]|] == faces[i];
  }

  /**
   * Lines 243-269: for every face, every index is checked against the
   * vertex count and copied, with its colour when the file has colours.
   * Returns false where the program prints an error and exits.
   */
  method GatherVertices(m: Mesh, fileVerts: array<Vec4>, fileColors: array<Vec4>, hasColors: bool, faces: seq<seq<int>>)
    returns (ok: bool)
    requires m.Valid() && m.numVertices == 0 && m.numColors == 0
    requires m.vertices.Length == 3 * |faces| && m.vertices != m.colors
    requires fileVerts != m.vertices && fileColors != m.vertices && fileVerts != m.colors && fileColors != m.colors
    requires hasColors ==> m.colors.Length == 3 * |faces| && fileColors.Length == fileVerts.Length
    requires !GatherCheck(Flat(faces), fileVerts.Length, 3 * |faces|).Undefined?
    modifies m, m.vertices, m.colors
    ensures m.Valid() && m.vertices == old(m.vertices) && m.colors == old(m.colors)
    ensures m.texCoords == old(m.texCoords) && m.numTexCoords == old(m.numTexCoords)
    ensures ok <==> GatherCheck(Flat(faces), fileVerts.Length, 3 * |faces|) == Copied
    ensures ok ==> CopiedIndices(Flat(faces), fileVerts.Length)
    ensures ok ==> m.Vertices() == Pick(fileVerts[..], Flat(faces))
    ensures ok && hasColors ==> m.Colors() == Pick(fileColors[..], Flat(faces))
    ensures ok && !hasColors ==> m.numColors == 0
  {
    var n := fileVerts.Length;
    ghost var cap := 3 * |faces|;
    var i := 0;
    while i < |faces|
      invariant 0 <= i <= |faces|
      invariant m.vertices == old(m.vertices) && m.colors == old(m.colors)
      invariant m.texCoords == old(m.texCoords) && m.numTexCoords == old(m.numTexCoords)
      invariant GatherCheck(Flat(faces[..i]), n, cap) == Copied
      invariant HoldsPicked(m, fileVerts, fileColors, hasColors, Flat(faces[..i]))
    {
      ok := GatherFace(m, fileVerts, fileColors, hasColors, faces, i);
      if !ok {
        return;
      }
      FaceDone(faces, i);
      i := i + 1;
    }
    assert faces[..i] == faces;
    CopiedIff(Flat(faces), n, cap);
    ok := true;
  }

  /** All indices lie in [0, n). */
  predicate CopiedIndices(idx: seq<int>, n: int) {
    forall k :: 0 <= k < |idx| ==> 0 <= idx[k] < n
  }

  /** The mesh holds the vertices (and colours) of the indices in done, all of which are in range. */
  ghost predicate HoldsPicked(m: Mesh, fileVerts: array<Vec4>, fileColors: array<Vec4>, hasColors: bool, done: seq<int>)
    reads m, m.vertices, m.colors, fileVerts, fileColors
  {
    && m.Valid()
    && CopiedIndices(done, fileVerts.Length)
    && (hasColors ==> fileColors.Length == fileVerts.Length)
    && m.Vertices() == Pick(fileVerts[..], done)
    && (hasColors ==> m.Colors() == Pick(fileColors[..], done))
    && (!hasColors ==> m.numColors == 0)
  }

  /** The inner loop of lines 253-268: the indices of face i. */
  method GatherFace(m: Mesh, fileVerts: array<Vec4>, fileColors: array<Vec4>, hasColors: bool, faces: seq<seq<int>>, i: nat)
    returns (ok: bool)
    requires i < |faces|
    requires m.vertices.Length == 3 * |faces| && m.vertices != m.colors
    requires fileVerts != m.vertices && fileColors != m.vertices && fileVerts != m.colors && fileColors != m.colors
    requires hasColors ==> m.colors.Length == 3 * |faces|
    requires !GatherCheck(Flat(faces), fileVerts.Length, 3 * |faces|).Undefined?
    requires GatherCheck(Flat(faces[..i]), fileVerts.Length, 3 * |faces|) == Copied
    requires HoldsPicked(m, fileVerts, fileColors, hasColors, Flat(faces[..i]))
    modifies m, m.vertices, m.colors
    ensures m.vertices == old(m.vertices) && m.colors == old(m.colors)
    ensures m.texCoords == old(m.texCoords) && m.numTexCoords == old(m.numTexCoords)
    ensures ok ==> GatherCheck(Flat(faces[..i]) + faces[i][..|faces[i]|], fileVerts.Length, 3 * |faces|) == Copied
    ensures ok ==> HoldsPicked(m, fileVerts, fileColors, hasColors, Flat(faces[..i]) + faces[i][..|faces[i]|])
    ensures !ok ==> m.Valid() && GatherCheck(Flat(faces), fileVerts.Length, 3 * |faces|).TooLarge?
  {
    var j := 0;
    ok := true;
    assert Flat(faces[..i]) + faces[i][..0] == Flat(faces[..i]);
    while ok && j < |faces[i]|
      invariant 0 <= j <= |faces[i]|
      invariant m.vertices == old(m.vertices) && m.colors == old(m.colors)
      invariant m.texCoords == old(m.texCoords) && m.numTexCoords == old(m.numTexCoords)
      invariant ok ==> GatherCheck(Flat(faces[..i]) + faces[i][..j], fileVerts.Length, 3 * |faces|) == Copied
      invariant ok ==> HoldsPicked(m, fileVerts, fileColors, hasColors, Flat(faces[..i]) + faces[i][..j])
      invariant !ok ==> m.Valid() && GatherCheck(Flat(faces), fileVerts.Length, 3 * |faces|).TooLarge?
    {
      ok := GatherIndex(m, fileVerts, fileColors, hasColors, faces, i, j);
      if ok {
        j := j + 1;
      }
    }
  }

  /** One pass of the inner loop of lines 253-268: index j of face i is checked and copied. */
  method GatherIndex(m: Mesh, fileVerts: array<Vec4>, fileColors: array<Vec4>, hasColors: bool, faces: seq<seq<int>>, i: nat, j: nat)
    returns (ok: bool)
    requires i < |faces| && j < |faces[i]|
    requires m.vertices.Length == 3 * |faces| && m.vertices != m.colors
    requires fileVerts != m.vertices && fileColors != m.vertices && fileVerts != m.colors && fileColors != m.colors
    requires hasColors ==> m.colors.Length == 3 * |faces|
    requires !GatherCheck(Flat(faces), fileVerts.Length, 3 * |faces|).Undefined?
    requires GatherCheck(Flat(faces[..i]) + faces[i][..j], fileVerts.Length, 3 * |faces|) == Copied
    requires HoldsPicked(m, fileVerts, fileColors, hasColors, Flat(faces[..i]) + faces[i][..j])
    modifies m, m.vertices, m.colors
    ensures m.vertices == old(m.vertices) && m.colors == old(m.colors)
    ensures m.texCoords == old(m.texCoords) && m.numTexCoords == old(m.numTexCoords)
    ensures ok ==> GatherCheck(Flat(faces[..i]) + faces[i][..j + 1], fileVerts.Length, 3 * |faces|) == Copied
    ensures ok ==> HoldsPicked(m, fileVerts, fileColors, hasColors, Flat(faces[..i]) + faces[i][..j + 1])
    ensures !ok ==> m.Valid() && GatherCheck(Flat(faces), fileVerts.Length, 3 * |faces|).TooLarge?
  {
    var n := fileVerts.Length;
    var index := faces[i][j];
    if index >= n {
      GatherNext(faces, i, j, n, 3 * |faces|);
      return false;
    }
    NextCopied(faces, i, j, n, 3 * |faces|);
    CopyVertex(m, fileVerts, fileColors, hasColors, Flat(faces[..i]) + faces[i][..j], index);
    ok := true;
  }

  /** Lines 264-268: vertex `index` (and its colour) appended to the mesh. */
  method CopyVertex(m: Mesh, fileVerts: array<Vec4>, fileColors: array<Vec4>, hasColors: bool, ghost done: seq<int>, index: int)
    requires m.vertices != m.colors && m.numVertices < m.vertices.Length
    requires fileVerts != m.vertices && fileColors != m.vertices && fileVerts != m.colors && fileColors != m.colors
    requires 0 <= index < fileVerts.Length
    requires hasColors ==> m.numColors < m.colors.Length
    requires HoldsPicked(m, fileVerts, fileColors, hasColors, done)
    modifies m, m.vertices, m.colors
    ensures m.vertices == old(m.vertices) && m.colors == old(m.colors)
    ensures m.texCoords == old(m.texCoords) && m.numTexCoords == old(m.numTexCoords)
    ensures HoldsPicked(m, fileVerts, fileColors, hasColors, done + [index])
  {
    m.PushVertex(fileVerts[index]);
    PickStep(fileVerts[..], done, index);
    if hasColors {
      ghost var vs := m.Vertices();
      m.PushColor(fileColors[index]);
      assert m.Vertices() == vs;
      PickStep(fileColors[..], done, index);
    }
  }

  // ---------------------------------------------------------------------------
  // The body: texture coordinates

  /**
   * Lines 299-320: for every face, every texture index is checked against
   * the texture vertex count and the coordinate copied.
   */
  method GatherTexCoords(m: Mesh, fileTex: array<Vec2>, faces: seq<seq<int>>) returns (ok: bool)
    requires m.Valid() && m.numTexCoords == 0 && m.texCoords.Length == 3 * |faces| && fileTex != m.texCoords
    requires !GatherCheck(Flat(faces), fileTex.Length, 3 * |faces|).Undefined?
    modifies m, m.texCoords
    ensures m.Valid() && m.texCoords == old(m.texCoords)
    ensures m.vertices == old(m.vertices) && m.numVertices == old(m.numVertices)
    ensures m.colors == old(m.colors) && m.numColors == old(m.numColors)
    ensures ok <==> GatherCheck(Flat(faces), fileTex.Length, 3 * |faces|) == Copied
    ensures ok ==> CopiedIndices(Flat(faces), fileTex.Length)
    ensures ok ==> m.TexCoords() == Pick(fileTex[..], Flat(faces))
  {
    var n := fileTex.Length;
    ghost var cap := 3 * |faces|;
    var i := 0;
    while i < |faces|
      invariant 0 <= i <= |faces|
      invariant m.Valid() && m.texCoords == old(m.texCoords)
      invariant m.vertices == old(m.vertices) && m.numVertices == old(m.numVertices)
      invariant m.colors == old(m.colors) && m.numColors == old(m.numColors)
      invariant GatherCheck(Flat(faces[..i]), n, cap) == Copied
      invariant CopiedIndices(Flat(faces[..i]), n)
      invariant m.TexCoords() == Pick(fileTex[..], Flat(faces[..i]))
    {
      ok := GatherTexFace(m, fileTex, faces, i);
      if !ok {
        return;
      }
      FaceDone(faces, i);
      i := i + 1;
    }
    assert faces[..i] == faces;
    CopiedIff(Flat(faces), n, cap);
    ok := true;
  }

  /** The inner loop of lines 308-320: the texture indices of face i. */
  method GatherTexFace(m: Mesh, fileTex: array<Vec2>, faces: seq<seq<int>>, i: nat) returns (ok: bool)
    requires i < |faces|
    requires m.Valid() && m.texCoords.Length == 3 * |faces| && fileTex != m.texCoords
    requires !GatherCheck(Flat(faces), fileTex.Length, 3 * |faces|).Undefined?
    requires GatherCheck(Flat(faces[..i]), fileTex.Length, 3 * |faces|) == Copied
    requires CopiedIndices(Flat(faces[..i]), fileTex.Length)
    requires m.TexCoords() == Pick(fileTex[..], Flat(faces[..i]))
    modifies m, m.texCoords
    ensures m.Valid() && m.texCoords == old(m.texCoords)
    ensures m.vertices == old(m.vertices) && m.numVertices == old(m.numVertices)
    ensures m.colors == old(m.colors) && m.numColors == old(m.numColors)
    ensures ok ==> GatherCheck(Flat(faces[..i]) + faces[i][..|faces[i]|], fileTex.Length, 3 * |faces|) == Copied
    ensures ok ==> CopiedIndices(Flat(faces[..i]) + faces[i][..|faces[i]|], fileTex.Length)
    ensures ok ==> m.TexCoords() == Pick(fileTex[..], Flat(faces[..i]) + faces[i][..|faces[i]|])
    ensures !ok ==> GatherCheck(Flat(faces), fileTex.Length, 3 * |faces|).TooLarge?
  {
    var j := 0;
    assert Flat(faces[..i]) + faces[i][..0] == Flat(faces[..i]);
    while j < |faces[i]|
      invariant 0 <= j <= |faces[i]|
      invariant m.Valid() && m.texCoords == old(m.texCoords)
      invariant m.vertices == old(m.vertices) && m.numVertices == old(m.numVertices)
      invariant m.colors == old(m.colors) && m.numColors == old(m.numColors)
      invariant GatherCheck(Flat(faces[..i]) + faces[i][..j], fileTex.Length, 3 * |faces|) == Copied
      invariant CopiedIndices(Flat(faces[..i]) + faces[i][..j], fileTex.Length)
      invariant m.TexCoords() == Pick(fileTex[..], Flat(faces[..i]) + faces[i][..j])
    {
      ok := GatherTexIndex(m, fileTex, faces, i, j);
      if !ok {
        return;
      }
      j := j + 1;
    }
    ok := true;
  }

  /** One pass of the inner loop of lines 308-320: texture index j of face i is checked and copied. */
  method GatherTexIndex(m: Mesh, fileTex: array<Vec2>, faces: seq<seq<int>>, i: nat, j: nat) returns (ok: bool)
    requires i < |faces| && j < |faces[i]|
    requires m.Valid() && m.texCoords.Length == 3 * |faces| && fileTex != m.texCoords
    requires !GatherCheck(Flat(faces), fileTex.Length, 3 * |faces|).Undefined?
    requires GatherCheck(Flat(faces[..i]) + faces[i][..j], fileTex.Length, 3 * |faces|) == Copied
    requires CopiedIndices(Flat(faces[..i]) + faces[i][..j], fileTex.Length)
    requires m.TexCoords() == Pick(fileTex[..], Flat(faces[..i]) + faces[i][..j])
    modifies m, m.texCoords
    ensures m.Valid() && m.texCoords == old(m.texCoords)
    ensures m.vertices == old(m.vertices) && m.numVertices == old(m.numVertices)
    ensures m.colors == old(m.colors) && m.numColors == old(m.numColors)
    ensures ok ==> GatherCheck(Flat(faces[..i]) + faces[i][..j + 1], fileTex.Length, 3 * |faces|) == Copied
    ensures ok ==> CopiedIndices(Flat(faces[..i]) + faces[i][..j + 1], fileTex.Length)
    ensures ok ==> m.TexCoords() == Pick(fileTex[..], Flat(faces[..i]) + faces[i][..j + 1])
    ensures !ok ==> GatherCheck(Flat(faces), fileTex.Length, 3 * |faces|).TooLarge?
  {
    var n := fileTex.Length;
    var index := faces[i][j];
    if index >= n {
      GatherNext(faces, i, j, n, 3 * |faces|);
      return false;
    }
    NextCopied(faces, i, j, n, 3 * |faces|);
    CopyTexCoord(m, fileTex, Flat(faces[..i]) + faces[i][..j], index);
    ok := true;
  }

  /** Line 319: texture coordinate `index` appended to the mesh. */
  method CopyTexCoord(m: Mesh, fileTex: array<Vec2>, ghost done: seq<int>, index: int)
    requires m.Valid() && m.numTexCoords < m.texCoords.Length && fileTex != m.texCoords
    requires 0 <= index < fileTex.Length && CopiedIndices(done, fileTex.Length)
    requires m.TexCoords() == Pick(fileTex[..], done)
    modifies m, m.texCoords
    ensures m.Valid() && m.texCoords == old(m.texCoords)
    ensures m.vertices == old(m.vertices) && m.numVertices == old(m.numVertices)
    ensures m.colors == old(m.colors) && m.numColors == old(m.numColors)
    ensures m.TexCoords() == Pick(fileTex[..], done + [index])
  {
    m.PushTexCoord(fileTex[index]);
    PickStep(fileTex[..], done, index);
  }

  /**
   * Lines 172-320 after the header: allocates `faces * 3` vertices and, by
   * hasColors, `faces * 3` colours or `faces * 3` texture coordinates, then
   * gathers the vertices (and colours) and, without colours, the texture
   * coordinates.  Returns false where the program exits.
   */
  method ReadBody(m: Mesh, h: Header, ply: seq<PlyVertex>, vertFaces: seq<seq<int>>, fileTex: seq<Vec2>, texFaces: seq<seq<int>>)
    returns (ok: bool)
    requires m.Valid() && m.numVertices == 0 && m.numColors == 0 && m.numTexCoords == 0
    requires h.faces >= 0 && |vertFaces| == h.faces && |ply| == h.numFileVerts
    requires !h.hasColors ==> |texFaces| == h.faces && |fileTex| == h.numFileTexVerts
    requires !GatherCheck(Flat(vertFaces), |ply|, 3 * h.faces).Undefined?
    requires !h.hasColors && GatherCheck(Flat(vertFaces), |ply|, 3 * h.faces) == Copied
      ==> !GatherCheck(Flat(texFaces), |fileTex|, 3 * h.faces).Undefined?
    modifies m, m.colors
    ensures m.Valid() && fresh(m.vertices) && m.vertices.Length == 3 * h.faces
    ensures ok <==> GatherCheck(Flat(vertFaces), |ply|, 3 * h.faces) == Copied
                    && (!h.hasColors ==> GatherCheck(Flat(texFaces), |fileTex|, 3 * h.faces) == Copied)
    ensures ok ==> m.numVertices == |Flat(vertFaces)| <= 3 * h.faces && CopiedIndices(Flat(vertFaces), |ply|)
    ensures ok ==> m.Vertices() == Pick(PlyPoints(ply), Flat(vertFaces))
    ensures ok && h.hasColors ==> m.Colors() == Pick(PlyColors(ply), Flat(vertFaces)) && m.numTexCoords == 0
    ensures ok && !h.hasColors ==> CopiedIndices(Flat(texFaces), |fileTex|) && m.numColors == 0
    ensures ok && !h.hasColors ==> m.TexCoords() == Pick(fileTex, Flat(texFaces))
  {
    AllocateBody(m, h.faces, h.hasColors);
    var fileVerts, fileColors := LoadFileVerts(ply, h.hasColors);
    ok := GatherVertices(m, fileVerts, fileColors, h.hasColors, vertFaces);
    if ok {
      CopiedIff(Flat(vertFaces), |ply|, 3 * h.faces);
    }
    if ok && !h.hasColors {
      ghost var vs := m.Vertices();
      ok := GatherFileTex(m, fileTex, texFaces);
      assert m.Vertices() == vs;
    }
  }

  /** Lines 174-186: `faces * 3` vertices, and `faces * 3` colours or texture coordinates by hasColors. */
  method AllocateBody(m: Mesh, faces: int, hasColors: bool)
    requires m.Valid() && m.numVertices == 0 && m.numColors == 0 && m.numTexCoords == 0 && faces >= 0
    modifies m
    ensures m.Valid() && m.numVertices == 0 && m.numColors == 0 && m.numTexCoords == 0
    ensures fresh(m.vertices) && m.vertices.Length == 3 * faces && m.vertices != m.colors
    ensures hasColors ==> fresh(m.colors) && m.colors.Length == 3 * faces && m.texCoords == old(m.texCoords)
    ensures !hasColors ==> fresh(m.texCoords) && m.texCoords.Length == 3 * faces && m.colors == old(m.colors)
  {
    m.vertices := new Vec4[faces * 3];
    if hasColors {
      m.colors := new Vec4[faces * 3];
    } else {
      m.texCoords := new Vec2[faces * 3];
    }
  }

  /** Lines 276-320: the texture coordinates read into `file_tex`, then gathered face by face. */
  method GatherFileTex(m: Mesh, fileTex: seq<Vec2>, faces: seq<seq<int>>) returns (ok: bool)
    requires m.Valid() && m.numTexCoords == 0 && m.texCoords.Length == 3 * |faces|
    requires !GatherCheck(Flat(faces), |fileTex|, 3 * |faces|).Undefined?
    modifies m, m.texCoords
    ensures m.Valid() && m.texCoords == old(m.texCoords)
    ensures m.vertices == old(m.vertices) && m.numVertices == old(m.numVertices)
    ensures m.colors == old(m.colors) && m.numColors == old(m.numColors)
    ensures ok <==> GatherCheck(Flat(faces), |fileTex|, 3 * |faces|) == Copied
    ensures ok ==> CopiedIndices(Flat(faces), |fileTex|) && m.TexCoords() == Pick(fileTex, Flat(faces))
  {
    var file_tex := new Vec2[|fileTex|](i requires 0 <= i < |fileTex| => fileTex[i]);
    assert file_tex[..] == fileTex;
    ok := GatherTexCoords(m, file_tex, faces);
  }

  // ---------------------------------------------------------------------------
  // Texture coordinates of the sphere

  /** Lines 432-434: x from [-1, 1] to s in [0, 1], y from [1, -1] to t in [0, 1]. */
  function SphereTex(v: Vec4): Vec2 {
    Vec2((v.x + 1.0) / 2.0, (v.y - 1.0) / -2.0)
  }

  /** The texture coordinate determines x and y again: x = 2s - 1, y = 1 - 2t. */
  lemma SphereTexInverse(v: Vec4)
    ensures 2.0 * SphereTex(v).s - 1.0 == v.x
    ensures 1.0 - 2.0 * SphereTex(v).t == v.y
  {
  }

  /** Points of the square [-1, 1]² land in the unit texture square; the north pole at (0.5, 0). */
  lemma SphereTexInUnitSquare(v: Vec4)
    requires -1.0 <= v.x <= 1.0 && -1.0 <= v.y <= 1.0
    ensures 0.0 <= SphereTex(v).s <= 1.0 && 0.0 <= SphereTex(v).t <= 1.0
    ensures SphereTex(Sphere.North) == Vec2(0.5, 0.0)
  {
  }

  /** SphereTex applied to every vertex. */
  function SphereTexes(vs: seq<Vec4>): (r: seq<Vec2>)
    ensures |r| == |vs| && forall i :: 0 <= i < |vs| ==> r[i] == SphereTex(vs[i])
  {
    seq(|vs|, i requires 0 <= i < |vs| => SphereTex(vs[i]))
  }

  /**
   * proj2's unitSphere: the sphere of module Sphere, then one texture
   * coordinate per vertex, written into a buffer of numVerts entries.
   */
  method TexturedSphere(m: Mesh, zr: Vec4 -> Vec4, yr: Vec4 -> Vec4)
    requires m.Valid() && m.numVertices == 0 && m.numTexCoords == 0
    modifies m
    ensures m.Valid() && fresh(m.vertices) && fresh(m.texCoords)
    ensures m.numVertices == m.numTexCoords == Sphere.NumVerts
    ensures m.Vertices() == Sphere.SphereVertices(Sphere.Globe(zr, yr))
    ensures m.TexCoords() == SphereTexes(m.Vertices())
    ensures m.colors == old(m.colors) && m.numColors == old(m.numColors)
  {
    m.texCoords := new Vec2[Sphere.NumVerts];
    Sphere.UnitSphere(m, zr, yr);
    MapSphereTex(m);
  }

  /** The loop of lines 430-436: one texture coordinate per vertex. */
  method MapSphereTex(m: Mesh)
    requires m.Valid() && m.numTexCoords == 0 && m.texCoords.Length == m.numVertices
    modifies m, m.texCoords
    ensures m.Valid() && m.texCoords == old(m.texCoords) && m.numTexCoords == m.numVertices
    ensures m.vertices == old(m.vertices) && m.numVertices == old(m.numVertices) && m.Vertices() == old(m.Vertices())
    ensures m.TexCoords() == SphereTexes(m.Vertices())
    ensures m.colors == old(m.colors) && m.numColors == old(m.numColors)
  {
    var i := 0;
    while i < m.numVertices
      invariant 0 <= i <= m.numVertices
      invariant m.Valid() && m.numTexCoords == i && m.texCoords == old(m.texCoords)
      invariant m.vertices == old(m.vertices) && m.numVertices == old(m.numVertices) && m.Vertices() == old(m.Vertices())
      invariant m.TexCoords() == SphereTexes(m.Vertices()[..i])
      invariant m.colors == old(m.colors) && m.numColors == old(m.numColors)
    {
      var v := m.vertices[i];
      ghost var vs := m.Vertices();
      m.PushTexCoord(Vec2((v.x + 1.0) / 2.0, (v.y - 1.0) / -2.0));
      assert vs[..i + 1] == vs[..i] + [v];
      i := i + 1;
    }
    assert m.Vertices()[..i] == m.Vertices();
  }

  // ---------------------------------------------------------------------------
  // The trackball point

  /** A pixel coordinate mapped to [-1, 1] across a window of `size` pixels. */
  function Gl(p: int, size: nat): real
    requires size > 0
  {
    ((p as real) - (size as real) / 2.0) / ((size as real) / 2.0)
  }

  /** The window's edges map to -1 and 1, its centre to 0. */
  lemma GlEdges(size: nat)
    requires size > 0 && size % 2 == 0
    ensures Gl(0, size) == -1.0 && Gl(size, size) == 1.0 && Gl(size / 2, size) == 0.0
  {
    var half := (size as real) / 2.0;
    assert (size / 2) as real == half;
    assert (0.0 - half) / half == -1.0;
    assert ((size as real) - half) / half == half / half == 1.0;
  }

  /**
   * setCurPoint: the pixel (x, y) as a point on the unit sphere, y flipped;
   * outside the ball z is 0.
   */
  function CurPoint(x: int, y: int, size: nat, sqrt: real -> real): (c: Vec4)
    requires size > 0 && IsSqrt(sqrt)
    ensures c.x == Gl(x, size) && c.y == -Gl(y, size) && c.w == 1.0 && c.z >= 0.0
    ensures c.x * c.x + c.y * c.y <= 1.0 ==> c.x * c.x + c.y * c.y + c.z * c.z == 1.0
    ensures c.x * c.x + c.y * c.y > 1.0 ==> c.z == 0.0
  {
    Lift(Gl(x, size), -Gl(y, size), sqrt)
  }

  /** (x, y) lifted onto the upper unit hemisphere, or kept at z = 0 outside it. */
  function Lift(gx: real, gy: real, sqrt: real -> real): Vec4 {
    var temp := 1.0 - (gx * gx + gy * gy);
    Vec4(gx, gy, if temp < 0.0 then 0.0 else sqrt(temp), 1.0)
  }

  // ---------------------------------------------------------------------------
  // Callbacks

  /** A 4x4 matrix, as four column vectors. */
  datatype Mat4 = Mat4(x: Vec4, y: Vec4, z: Vec4, w: Vec4)

  const Identity: Mat4 := Mat4(Vec4(1.0, 0.0, 0.0, 0.0), Vec4(0.0, 1.0, 0.0, 0.0),
                               Vec4(0.0, 0.0, 1.0, 0.0), Vec4(0.0, 0.0, 0.0, 1.0))

  const LeftButton: int := 0
  const Down: int := 0
  const Up: int := 1
  const WheelUp: int := 3
  const WheelDown: int := 4

  /**
   * The globals the callbacks change: whether the idle callback keeps
   * spinning, the spin per frame, the current transformation, the
   * trackball's current point, and whether the main loop still runs.
   */
  class View {
    var idleSpin: bool
    var rotateMat: Mat4
    var ctm: Mat4
    var curPoint: Vec4
    var running: bool
    const size: nat

    /** The initial globals; main sets ctm to the identity. */
    constructor (size: nat)
      requires size > 0
      ensures this.size == size && !idleSpin && rotateMat == Identity && ctm == Identity
      ensures curPoint == Vec4(0.0, 0.0, 0.0, 1.0) && running
    {
      this.size := size;
      idleSpin, rotateMat, ctm := false, Identity, Identity;
      curPoint, running := Vec4(0.0, 0.0, 0.0, 1.0), true;
    }

    /** idle: while spinning, ctm = rotateMat * ctm (`mul` is multMat). */
    method Idle(mul: (Mat4, Mat4) -> Mat4)
      modifies this
      ensures ctm == if old(idleSpin) then mul(old(rotateMat), old(ctm)) else old(ctm)
      ensures idleSpin == old(idleSpin) && rotateMat == old(rotateMat)
      ensures curPoint == old(curPoint) && running == old(running)
    {
      if idleSpin {
        ctm := mul(rotateMat, ctm);
      }
    }

    /**
     * mouse: the left button pressed takes the trackball point and stops
     * the spin; released, it restarts it.  Buttons 3 and 4 (the wheel)
     * scale ctm by 1.02 and 1 / 1.02 (`scaled(s, m)` is scale(s, s, s) * m).
     */
    method Mouse(button: int, state: int, x: int, y: int, sqrt: real -> real, scaled: (real, Mat4) -> Mat4)
      requires size > 0 && IsSqrt(sqrt)
      modifies this
      ensures button == LeftButton && state == Down ==>
        curPoint == CurPoint(x, y, size, sqrt) && rotateMat == Identity && !idleSpin
      ensures button == LeftButton && state == Up ==>
        idleSpin && curPoint == old(curPoint) && rotateMat == old(rotateMat)
      ensures button != LeftButton || (state != Down && state != Up) ==>
        idleSpin == old(idleSpin) && curPoint == old(curPoint) && rotateMat == old(rotateMat)
      ensures ctm == if button == WheelUp then scaled(1.02, old(ctm))
                     else if button == WheelDown then scaled(1.0 / 1.02, old(ctm))
                     else old(ctm)
      ensures running == old(running)
    {
      if button == LeftButton {
        if state == Down {
          SetCurPoint(x, y, sqrt);
          rotateMat := Identity;
          idleSpin := false;
        } else if state == Up {
          idleSpin := true;
        }
      }
      if button == WheelUp {
        ctm := scaled(1.02, ctm);
      }
      if button == WheelDown {
        ctm := scaled(1.0 / 1.02, ctm);
      }
    }

    /** setCurPoint: the global current point from a pixel. */
    method SetCurPoint(x: int, y: int, sqrt: real -> real)
      requires size > 0 && IsSqrt(sqrt)
      modifies this
      ensures curPoint == CurPoint(x, y, size, sqrt)
      ensures idleSpin == old(idleSpin) && rotateMat == old(rotateMat) && ctm == old(ctm) && running == old(running)
    {
      var glX := Gl(x, size);
      var glY := -Gl(y, size);
      curPoint := Lift(glX, glY, sqrt);
    }

    /** keyboard: 'q' leaves the main loop, 'r' resets ctm and rotateMat to the identity. */
    method Keyboard(key: char)
      modifies this
      ensures running == (old(running) && key != 'q')
      ensures key == 'r' ==> ctm == Identity && rotateMat == Identity
      ensures key != 'r' ==> ctm == old(ctm) && rotateMat == old(rotateMat)
      ensures idleSpin == old(idleSpin) && curPoint == old(curPoint)
    {
      if key == 'q' {
        running := false;
      }
      if key == 'r' {
        ctm := Identity;
        rotateMat := Identity;
      }
    }
  }
}
