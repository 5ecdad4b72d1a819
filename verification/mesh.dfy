/**
 * What every demo program shares: the global vertex, colour and texture
 * coordinate buffers with their running counters (`vertices[num_vertices++]
 * = ...`), the per-triangle random colouring `randColors`, the in-place
 * transformation of all vertices, and the sequence builders the mesh
 * generators are specified with.
 */
module Mesh {
  import opened Vec

  /** M_PI of math.h. */
  const Pi: real := 3.14159265358979323846

  /** What the generators need of cos and sin: every angle lands on the unit circle. */
  ghost predicate OnUnitCircle(cos: real -> real, sin: real -> real) {
    forall a: real :: cos(a) * cos(a) + sin(a) * sin(a) == 1.0
  }

  // ---------------------------------------------------------------------------
  // Sequence builders used by the specifications of the generators

  /** f(0) + f(1) + ... + f(n - 1). */
  function Concat<T>(f: nat -> seq<T>, n: nat): seq<T> {
    if n == 0 then [] else Concat(f, n - 1) + f(n - 1)
  }

  /** One more piece appended. */
  lemma ConcatStep<T>(f: nat -> seq<T>, n: nat)
    ensures Concat(f, n + 1) == Concat(f, n) + f(n)
  {
  }

  /** Three single appends are one append of three. */
  lemma Append3<T>(s: seq<T>, a: T, b: T, c: T)
    ensures s + [a] + [b] + [c] == s + [a, b, c]
  {
  }

  lemma AppendAssoc<T>(s: seq<T>, t: seq<T>, u: seq<T>)
    ensures s + t + u == s + (t + u)
  {
  }

  /** A slice of a slice is a slice of the whole. */
  lemma SliceOfSlice<T>(s: seq<T>, a: nat, b: nat, c: nat, d: nat)
    requires a <= b <= |s| && c <= d <= b - a
    ensures s[a..b][c..d] == s[a + c .. a + d]
  {
    assert |s[a..b][c..d]| == d - c;
    forall k | 0 <= k < d - c
      ensures s[a..b][c..d][k] == s[a + c .. a + d][k]
    {
      assert s[a..b][c..d][k] == s[a..b][c + k] == s[a + c + k];
    }
  }

  /** A piece of a piece: q sits at c in seg, which sits at b in s, so q sits at b + c in s. */
  lemma PieceOfPiece<T>(s: seq<T>, seg: seq<T>, q: seq<T>, b: nat, c: nat, outer: nat, inner: nat)
    requires b + outer <= |s| && |seg| == outer && s[b .. b + outer] == seg
    requires c + inner <= outer && |q| == inner && seg[c .. c + inner] == q
    ensures b + c + inner <= |s| && s[b + c .. b + c + inner] == q
  {
    SliceOfSlice(s, b, b + outer, c, c + inner);
  }

  /** Pieces of equal width w give a concatenation of width w * n. */
  lemma {:induction false} ConcatLength<T>(f: nat -> seq<T>, n: nat, w: nat)
    requires forall i: nat :: i < n ==> |f(i)| == w
    ensures |Concat(f, n)| == w * n
  {
    if n > 0 {
      ConcatLength(f, n - 1, w);
      assert w * n == w * (n - 1) + w;
    }
  }

  /** Entry p of piece i sits at w * i + p. */
  lemma {:induction false} ConcatIndex<T>(f: nat -> seq<T>, n: nat, w: nat, i: nat, p: nat)
    requires forall j: nat :: j < n ==> |f(j)| == w
    requires i < n && p < w
    ensures w * i + p < |Concat(f, n)| == w * n
    ensures Concat(f, n)[w * i + p] == f(i)[p]
  {
    ConcatLength(f, n, w);
    ConcatLength(f, n - 1, w);
    assert w * n == w * (n - 1) + w;
    if i < n - 1 {
      ConcatIndex(f, n - 1, w, i, p);
      assert w * i + p < w * (n - 1);
    } else {
      assert w * i == w * (n - 1);
    }
  }

  /** Piece i occupies [w * i, w * i + w). */
  lemma {:induction false} ConcatPiece<T>(f: nat -> seq<T>, n: nat, w: nat, i: nat)
    requires forall j: nat :: j < n ==> |f(j)| == w
    requires i < n
    ensures w * i + w <= |Concat(f, n)| == w * n
    ensures Concat(f, n)[w * i .. w * i + w] == f(i)
  {
    ConcatLength(f, n, w);
    ConcatLength(f, n - 1, w);
    var front := Concat(f, n - 1);
    assert Concat(f, n) == front + f(n - 1);
    if i == n - 1 {
      assert |front| == w * i;
    } else {
      ConcatPiece(f, n - 1, w, i);
      assert w * i + w <= w * (n - 1) by {
        assert i + 1 <= n - 1;
        MulMono(w, i + 1, n - 1);
      }
      assert (front + f(n - 1))[w * i .. w * i + w] == front[w * i .. w * i + w];
    }
  }

  lemma MulMono(w: nat, a: nat, b: nat)
    requires a <= b
    ensures w * a <= w * b
  {
  }

  /** f applied n times to v. */
  function Iter(f: Vec4 -> Vec4, n: nat, v: Vec4): Vec4 {
    if n == 0 then v else f(Iter(f, n - 1, v))
  }

  /** Each element of s transformed by f. */
  function MapVec(f: Vec4 -> Vec4, s: seq<Vec4>): (r: seq<Vec4>)
    ensures |r| == |s| && forall i :: 0 <= i < |s| ==> r[i] == f(s[i])
  {
    seq(|s|, i requires 0 <= i < |s| => f(s[i]))
  }

  // ---------------------------------------------------------------------------
  // Families of rings swept by a repeated transformation

  /**
   * Point j of ring k.  The generators hold one ring in an array and move
   * it with a rotation or lift matrix to obtain the next.
   */
  type Rings = (nat, nat) -> Vec4

  /** Ring k + 1 of R is ring k moved point by point by step. */
  ghost predicate Advances(R: Rings, step: Vec4 -> Vec4) {
    forall k: nat, j: nat {:trigger step(R(k, j))} :: R(k + 1, j) == step(R(k, j))
  }

  /** The first n points of ring k, as the array a generator holds. */
  function Ring(R: Rings, k: nat, n: nat): (r: seq<Vec4>)
    ensures |r| == n
    ensures forall j :: 0 <= j < n ==> r[j] == R(k, j)
  {
    seq(n, j requires 0 <= j < n => R(k, j))
  }

  /** Moving every point of ring k by step gives ring k + 1. */
  lemma AdvanceRingSpec(R: Rings, step: Vec4 -> Vec4, k: nat, n: nat)
    requires Advances(R, step)
    ensures MapVec(step, Ring(R, k, n)) == Ring(R, k + 1, n)
  {
    forall j | 0 <= j < n
      ensures MapVec(step, Ring(R, k, n))[j] == Ring(R, k + 1, n)[j]
    {
      assert R(k + 1, j) == step(R(k, j));
    }
  }

  /** `ring[i] = multMatVec(&tr, &ring[i])` for every i: the whole array moved by step. */
  method AdvanceRing(ring: array<Vec4>, step: Vec4 -> Vec4)
    modifies ring
    ensures ring[..] == MapVec(step, old(ring[..]))
  {
    var i := 0;
    while i < ring.Length
      invariant 0 <= i <= ring.Length
      invariant forall j :: 0 <= j < i ==> ring[j] == step(old(ring[j]))
      invariant forall j :: i <= j < ring.Length ==> ring[j] == old(ring[j])
    {
      ring[i] := step(ring[i]);
      i := i + 1;
    }
  }

  // ---------------------------------------------------------------------------
  // randColors

  /** A value of rand() / RAND_MAX. */
  type Intensity = r: real | 0.0 <= r <= 1.0

  /** The three random values drawn for one triangle. */
  datatype Rgb = Rgb(r: Intensity, g: Intensity, b: Intensity)

  /** The opaque colour given to all three vertices of a triangle. */
  function TriangleColor(c: Rgb): (r: Vec4)
    ensures 0.0 <= r.x <= 1.0 && 0.0 <= r.y <= 1.0 && 0.0 <= r.z <= 1.0 && r.w == 1.0
  {
    Vec4(c.r, c.g, c.b, 1.0)
  }

  /** The three colour slots of triangle t. */
  function ColorTriples(sample: nat -> Rgb): nat -> seq<Vec4> {
    (t: nat) => [TriangleColor(sample(t)), TriangleColor(sample(t)), TriangleColor(sample(t))]
  }

  /** The colours randColors writes for n triangles. */
  function TriangleColors(sample: nat -> Rgb, n: nat): seq<Vec4> {
    Concat(ColorTriples(sample), n)
  }

  /**
   * The global buffers of a demo program: `vertices`, `colors` and
   * `tex_coords` with their counters.  All counters start at zero.
   */
  class Mesh {
    var vertices: array<Vec4>
    var numVertices: nat
    var colors: array<Vec4>
    var numColors: nat
    var texCoords: array<Vec2>
    var numTexCoords: nat

    /** No counter has run past its allocation. */
    ghost predicate Valid()
      reads this
    {
      numVertices <= vertices.Length && numColors <= colors.Length && numTexCoords <= texCoords.Length
    }

    /** The vertices written so far. */
    ghost function Vertices(): seq<Vec4>
      reads this, vertices
      requires Valid()
    {
      vertices[..numVertices]
    }

    /** The colours written so far. */
    ghost function Colors(): seq<Vec4>
      reads this, colors
      requires Valid()
    {
      colors[..numColors]
    }

    /** The texture coordinates written so far. */
    ghost function TexCoords(): seq<Vec2>
      reads this, texCoords
      requires Valid()
    {
      texCoords[..numTexCoords]
    }

    constructor ()
      ensures Valid() && fresh(vertices) && fresh(colors) && fresh(texCoords)
      ensures numVertices == 0 && numColors == 0 && numTexCoords == 0
    {
      vertices := new Vec4[0];
      colors := new Vec4[0];
      texCoords := new Vec2[0];
      numVertices, numColors, numTexCoords := 0, 0, 0;
    }

    /** `vertices[num_vertices++] = v`: the source never checks the bound, so the caller must. */
    method PushVertex(v: Vec4)
      requires Valid() && numVertices < vertices.Length
      modifies this, vertices
      ensures Valid() && Vertices() == old(Vertices()) + [v]
      ensures vertices == old(vertices) && numVertices == old(numVertices) + 1
      ensures colors == old(colors) && numColors == old(numColors)
      ensures texCoords == old(texCoords) && numTexCoords == old(numTexCoords)
    {
      vertices[numVertices] := v;
      numVertices := numVertices + 1;
      assert vertices[..numVertices] == old(vertices[..numVertices]) + [v];
    }

    /** Three consecutive `vertices[num_vertices++]` writes: one triangle. */
    method PushTriangle(a: Vec4, b: Vec4, c: Vec4)
      requires Valid() && numVertices + 3 <= vertices.Length
      modifies this, vertices
      ensures Valid() && Vertices() == old(Vertices()) + [a, b, c]
      ensures vertices == old(vertices) && numVertices == old(numVertices) + 3
      ensures colors == old(colors) && numColors == old(numColors)
      ensures texCoords == old(texCoords) && numTexCoords == old(numTexCoords)
    {
      PushVertex(a);
      PushVertex(b);
      PushVertex(c);
      Append3(old(Vertices()), a, b, c);
    }

    /** `colors[num_colors++] = c`. */
    method PushColor(c: Vec4)
      requires Valid() && numColors < colors.Length
      modifies this, colors
      ensures Valid() && Colors() == old(Colors()) + [c]
      ensures colors == old(colors) && numColors == old(numColors) + 1
      ensures vertices == old(vertices) && numVertices == old(numVertices)
      ensures texCoords == old(texCoords) && numTexCoords == old(numTexCoords)
    {
      colors[numColors] := c;
      numColors := numColors + 1;
      assert colors[..numColors] == old(colors[..numColors]) + [c];
    }

    /** Three consecutive `colors[num_colors++]` writes: the colours of one triangle. */
    method PushColorTriangle(a: Vec4, b: Vec4, c: Vec4)
      requires Valid() && numColors + 3 <= colors.Length
      modifies this, colors
      ensures Valid() && Colors() == old(Colors()) + [a, b, c]
      ensures colors == old(colors) && numColors == old(numColors) + 3
      ensures vertices == old(vertices) && numVertices == old(numVertices)
      ensures texCoords == old(texCoords) && numTexCoords == old(numTexCoords)
    {
      PushColor(a);
      PushColor(b);
      PushColor(c);
      Append3(old(Colors()), a, b, c);
    }

    /** `tex_coords[num_tex_coords++] = t`. */
    method PushTexCoord(t: Vec2)
      requires Valid() && numTexCoords < texCoords.Length
      modifies this, texCoords
      ensures Valid() && TexCoords() == old(TexCoords()) + [t]
      ensures texCoords == old(texCoords) && numTexCoords == old(numTexCoords) + 1
      ensures vertices == old(vertices) && numVertices == old(numVertices)
      ensures colors == old(colors) && numColors == old(numColors)
    {
      texCoords[numTexCoords] := t;
      numTexCoords := numTexCoords + 1;
      assert texCoords[..numTexCoords] == old(texCoords[..numTexCoords]) + [t];
    }

    /**
     * randColors: a fresh colour buffer of numVertices entries; for each of
     * the numVertices / 3 triangles one random sample, written three times.
     * `sample(t)` stands for the three rand() calls of triangle t.  The
     * colour counter is not reset, so the writes stay inside the buffer only
     * when it starts no higher than numVertices % 3.
     */
    method RandColors(sample: nat -> Rgb)
      requires Valid()
      requires numColors + 3 * (numVertices / 3) <= numVertices
      modifies this
      ensures Valid() && fresh(colors) && colors.Length == numVertices
      ensures vertices == old(vertices) && numVertices == old(numVertices)
      ensures texCoords == old(texCoords) && numTexCoords == old(numTexCoords)
      ensures numColors == old(numColors) + 3 * (numVertices / 3)
      ensures colors[old(numColors)..numColors] == TriangleColors(sample, numVertices / 3)
    {
      ghost var base := numColors;
      colors := new Vec4[numVertices];
      ghost var junk := colors[..base];
      var num := numVertices / 3;
      var i := 0;
      while i < num
        invariant 0 <= i <= num
        invariant Valid() && fresh(colors) && colors.Length == numVertices
        invariant numColors == base + 3 * i
        invariant vertices == old(vertices) && numVertices == old(numVertices)
        invariant texCoords == old(texCoords) && numTexCoords == old(numTexCoords)
        invariant Colors() == junk + TriangleColors(sample, i)
      {
        PushSampleColor(sample, i, junk);
        i := i + 1;
      }
      assert colors[base..numColors] == Colors()[base..];
    }

    /** One pass of randColors' loop: the colour of triangle i, three times. */
    method PushSampleColor(sample: nat -> Rgb, i: nat, ghost junk: seq<Vec4>)
      requires Valid() && numColors + 3 <= colors.Length
      requires Colors() == junk + TriangleColors(sample, i)
      modifies this, colors
      ensures Valid() && Colors() == junk + TriangleColors(sample, i + 1)
      ensures colors == old(colors) && numColors == old(numColors) + 3
      ensures vertices == old(vertices) && numVertices == old(numVertices)
      ensures texCoords == old(texCoords) && numTexCoords == old(numTexCoords)
    {
      var c := TriangleColor(sample(i));
      PushColorTriangle(c, c, c);
      AppendAssoc(junk, TriangleColors(sample, i), [c, c, c]);
      ConcatStep(ColorTriples(sample), i);
    }

    /**
     * The closing loop of myObject and centerScale: every written vertex is
     * replaced, in place, by its image under the transform `tr` (a matrix
     * product of the library, which is not part of this model).
     */
    method TransformVertices(tr: Vec4 -> Vec4)
      requires Valid()
      modifies vertices
      ensures Valid()
      ensures Vertices() == MapVec(tr, old(Vertices()))
      ensures vertices[numVertices..] == old(vertices[numVertices..])
    {
      var i := 0;
      while i < numVertices
        invariant 0 <= i <= numVertices
        invariant forall k :: 0 <= k < i ==> vertices[k] == tr(old(vertices[k]))
        invariant forall k :: i <= k < vertices.Length ==> vertices[k] == old(vertices[k])
      {
        vertices[i] := tr(vertices[i]);
        i := i + 1;
      }
    }
  }

  /**
   * randColors gives 3 colours per triangle, and the three slots of every
   * triangle hold one opaque colour drawn from [0, 1]³.
   */
  lemma TriangleSlotsAgree(sample: nat -> Rgb, n: nat, t: nat)
    requires t < n
    ensures var cs := TriangleColors(sample, n);
      && |cs| == 3 * n
      && cs[3 * t] == cs[3 * t + 1] == cs[3 * t + 2] == TriangleColor(sample(t))
      && cs[3 * t].w == 1.0
      && 0.0 <= cs[3 * t].x <= 1.0 && 0.0 <= cs[3 * t].y <= 1.0 && 0.0 <= cs[3 * t].z <= 1.0
  {
    var cs := TriangleColors(sample, n);
    ConcatPiece(ColorTriples(sample), n, 3, t);
    var s := cs[3 * t .. 3 * t + 3];
    assert s == ColorTriples(sample)(t);
    assert cs[3 * t] == s[0] && cs[3 * t + 1] == s[1] && cs[3 * t + 2] == s[2];
  }
}
