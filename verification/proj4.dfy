/**
 * proj4/proj4.c: the Rubik's cube.  Every one of the 27 small cubes
 * ("cubies") is the same 132-vertex model: six coloured square faces and
 * 24 black sloped edge triangles turned to all four sides.  buildCube
 * translates cubie 9i + 3j + k (layer i from the top, row j from the back,
 * column k from the left) into place and colours its faces from the table
 * color_orders; display draws cubie n from the vertex range [132n, 132n + 132).
 *
 * The growable vertex lists of the list library (v4List) are modelled by the
 * class VecList; the rotations and the translation are parameters.
 */
module Proj4 {
  import opened Vec
  import opened Mesh

  // ---------------------------------------------------------------------------
  // The colour tables

  /** proj4.h's Color, in its declaration order. */
  datatype Color = Green | Red | Blue | Orange | Yellow | White | Black

  /** VERTS_PER_CUBE. */
  const VertsPerCube: nat := 132

  /** color_orders: the colours of the six faces of every cubie, Black inside the cube. */
  const ColorOrders: seq<seq<Color>> := [
    // Level 1
    [Black, Black, Blue, Orange, White, Black],
    [Black, Black, Blue, Black, White, Black],
    [Black, Red, Blue, Black, White, Black],
    [Black, Black, Black, Orange, White, Black],
    [Black, Black, Black, Black, White, Black],
    [Black, Red, Black, Black, White, Black],
    [Green, Black, Black, Orange, White, Black],
    [Green, Black, Black, Black, White, Black],
    [Green, Red, Black, Black, White, Black],
    // Level 2
    [Black, Black, Blue, Orange, Black, Black],
    [Black, Black, Blue, Black, Black, Black],
    [Black, Red, Blue, Black, Black, Black],
    [Black, Black, Black, Orange, Black, Black],
    [Black, Black, Black, Black, Black, Black],
    [Black, Red, Black, Black, Black, Black],
    [Green, Black, Black, Orange, Black, Black],
    [Green, Black, Black, Black, Black, Black],
    [Green, Red, Black, Black, Black, Black],
    // Level 3
    [Black, Black, Blue, Orange, Black, Yellow],
    [Black, Black, Blue, Black, Black, Yellow],
    [Black, Red, Blue, Black, Black, Yellow],
    [Black, Black, Black, Orange, Black, Yellow],
    [Black, Black, Black, Black, Black, Yellow],
    [Black, Red, Black, Black, Black, Yellow],
    [Green, Black, Black, Orange, Black, Yellow],
    [Green, Black, Black, Black, Black, Yellow],
    [Green, Red, Black, Black, Black, Yellow]
  ]

  /**
   * The colour face s of the cubie at layer i, row j, column k shows: a
   * face is coloured exactly when the cubie lies on the matching outer layer.
   */
  function LayerColor(i: nat, j: nat, k: nat, s: nat): Color {
    if s == 0 then (if j == 2 then Green else Black)
    else if s == 1 then (if k == 2 then Red else Black)
    else if s == 2 then (if j == 0 then Blue else Black)
    else if s == 3 then (if k == 0 then Orange else Black)
    else if s == 4 then (if i == 0 then White else Black)
    else (if i == 2 then Yellow else Black)
  }

  /** Row 9i + 3j + k of the table follows the outer-layer rule in every slot. */
  lemma ColorOrdersFollowLayers(i: nat, j: nat, k: nat)
    requires i < 3 && j < 3 && k < 3
    ensures |ColorOrders| == 27 && |ColorOrders[9 * i + 3 * j + k]| == 6
    ensures forall s :: 0 <= s < 6 ==> ColorOrders[9 * i + 3 * j + k][s] == LayerColor(i, j, k, s)
  {
    var row := ColorOrders[9 * i + 3 * j + k];
    if i == 0 {
      assert |row| == 6 && forall s :: 0 <= s < 6 ==> row[s] == LayerColor(0, j, k, s);
    } else if i == 1 {
      assert |row| == 6 && forall s :: 0 <= s < 6 ==> row[s] == LayerColor(1, j, k, s);
    } else {
      assert |row| == 6 && forall s :: 0 <= s < 6 ==> row[s] == LayerColor(2, j, k, s);
    }
  }

  /** orientation: which cubie sits at [layer][row][col]; initially cubie 9 * layer + 3 * row + col. */
  const Orientation: seq<seq<seq<int>>> := [
    [[0, 1, 2], [3, 4, 5], [6, 7, 8]],
    [[9, 10, 11], [12, 13, 14], [15, 16, 17]],
    [[18, 19, 20], [21, 22, 23], [24, 25, 26]]
  ]

  /** The initial orientation is the identity grid. */
  lemma OrientationIsIdentity(i: nat, j: nat, k: nat)
    requires i < 3 && j < 3 && k < 3
    ensures |Orientation| == 3 && |Orientation[i]| == 3 && |Orientation[i][j]| == 3
    ensures Orientation[i][j][k] == 9 * i + 3 * j + k
  {
    var layer := Orientation[i];
    assert |layer| == 3 && |layer[0]| == 3 && |layer[1]| == 3 && |layer[2]| == 3;
    assert layer[j][k] == 9 * i + 3 * j + k;
  }

  /** Every cubie 0..26 appears in the initial orientation, at exactly one place. */
  lemma OrientationIsPermutation(n: int)
    requires 0 <= n < 27
    ensures var i, j, k := n / 9, n / 3 % 3, n % 3;
      i < 3 && j < 3 && k < 3 && Orientation[i][j][k] == n
    ensures forall i, j, k :: 0 <= i < 3 && 0 <= j < 3 && 0 <= k < 3 && Orientation[i][j][k] == n ==>
      i == n / 9 && j == n / 3 % 3 && k == n % 3
  {
    OrientationIsIdentity(n / 9, n / 3 % 3, n % 3);
    forall i, j, k | 0 <= i < 3 && 0 <= j < 3 && 0 <= k < 3 && Orientation[i][j][k] == n
      ensures i == n / 9 && j == n / 3 % 3 && k == n % 3
    {
      OrientationIsIdentity(i, j, k);
      Digits(i, j, k);
    }
  }

  /** 9i + 3j + k has base-3 digits i, j and k. */
  lemma Digits(i: int, j: int, k: int)
    requires 0 <= i < 3 && 0 <= j < 3 && 0 <= k < 3
    ensures (9 * i + 3 * j + k) / 9 == i && (9 * i + 3 * j + k) / 3 % 3 == j && (9 * i + 3 * j + k) % 3 == k
  {
    var n := 9 * i + 3 * j + k;
    assert n / 3 == 3 * i + j;
    assert n / 9 == i;
  }

  // ---------------------------------------------------------------------------
  // The vertex lists

  /** A growable list of vectors: v4List. */
  class VecList {
    var items: seq<Vec4>

    /** v4ListNew on a fresh list. */
    constructor ()
      ensures items == []
    {
      items := [];
    }

    /** v4ListNew on an existing list: it is empty again. */
    method Reset()
      modifies this
      ensures items == []
    {
      items := [];
    }

    /** v4ListPush: v appended. */
    method Push(v: Vec4)
      modifies this
      ensures items == old(items) + [v]
    {
      items := items + [v];
    }
  }

  /** n copies of v. */
  function Repeat(v: Vec4, n: nat): (r: seq<Vec4>)
    ensures |r| == n && forall i :: 0 <= i < n ==> r[i] == v
  {
    seq(n, _ => v)
  }

  /** The colour vectors of colorSide; Black is (0, 0, 0, 1). */
  function SideColor(c: Color): (v: Vec4)
    ensures v.w == 1.0 && 0.0 <= v.x <= 1.0 && 0.0 <= v.y <= 1.0 && 0.0 <= v.z <= 1.0
    ensures c == Black <==> v == Vec4(0.0, 0.0, 0.0, 1.0)
  {
    match c
    case Green => Vec4(0.22745098, 0.478431373, 0.278431373, 1.0)
    case Red => Vec4(0.588235294, 0.270588235, 0.274509804, 1.0)
    case Blue => Vec4(47.0 / 255.0, 86.0 / 255.0, 207.0 / 255.0, 1.0)
    case Orange => Vec4(235.0 / 255.0, 159.0 / 255.0, 37.0 / 255.0, 1.0)
    case Yellow => Vec4(1.0, 1.0, 0.0, 1.0)
    case White => Vec4(1.0, 1.0, 1.0, 1.0)
    case Black => Vec4(0.0, 0.0, 0.0, 1.0)
  }

  /** colorSide: six copies of the colour of c appended to the list. */
  method ColorSide(c: Color, list: VecList)
    modifies list
    ensures list.items == old(list.items) + Repeat(SideColor(c), 6)
  {
    var sideColor: Vec4;
    match c {
      case Green => sideColor := Vec4(0.22745098, 0.478431373, 0.278431373, 1.0);
      case Red => sideColor := Vec4(0.588235294, 0.270588235, 0.274509804, 1.0);
      case Blue => sideColor := Vec4(47.0 / 255.0, 86.0 / 255.0, 207.0 / 255.0, 1.0);
      case Orange => sideColor := Vec4(235.0 / 255.0, 159.0 / 255.0, 37.0 / 255.0, 1.0);
      case Yellow => sideColor := Vec4(1.0, 1.0, 0.0, 1.0);
      case White => sideColor := Vec4(1.0, 1.0, 1.0, 1.0);
      case Black => sideColor := Vec4(0.0, 0.0, 0.0, 1.0);
    }
    var i := 0;
    while i < 6
      invariant 0 <= i <= 6
      invariant list.items == old(list.items) + Repeat(sideColor, i)
    {
      list.Push(sideColor);
      assert Repeat(sideColor, i) + [sideColor] == Repeat(sideColor, i + 1);
      i := i + 1;
    }
  }

  // ---------------------------------------------------------------------------
  // One cubie

  /** face_ref: the front face, two triangles at z = 0.25. */
  const FaceRef: seq<Vec4> := [
    Vec4(-0.2, -0.2, 0.25, 1.0), Vec4(0.2, -0.2, 0.25, 1.0), Vec4(0.2, 0.2, 0.25, 1.0),
    Vec4(-0.2, -0.2, 0.25, 1.0), Vec4(0.2, 0.2, 0.25, 1.0), Vec4(-0.2, 0.2, 0.25, 1.0)
  ]

  /** edge_ref: two corner triangles and six edge triangles around the front face. */
  const EdgeRef: seq<Vec4> := [
    Vec4(-0.2, 0.25, 0.2, 1.0), Vec4(-0.25, 0.2, 0.2, 1.0), Vec4(-0.2, 0.2, 0.25, 1.0),
    Vec4(-0.2, -0.2, 0.25, 1.0), Vec4(-0.25, -0.2, 0.2, 1.0), Vec4(-0.2, -0.25, 0.2, 1.0),
    Vec4(-0.2, 0.2, 0.25, 1.0), Vec4(0.2, 0.25, 0.2, 1.0), Vec4(-0.2, 0.25, 0.2, 1.0),
    Vec4(-0.2, 0.2, 0.25, 1.0), Vec4(0.2, 0.2, 0.25, 1.0), Vec4(0.2, 0.25, 0.2, 1.0),
    Vec4(-0.2, -0.2, 0.25, 1.0), Vec4(-0.2, -0.25, 0.2, 1.0), Vec4(0.2, -0.25, 0.2, 1.0),
    Vec4(-0.2, -0.2, 0.25, 1.0), Vec4(0.2, -0.25, 0.2, 1.0), Vec4(0.2, -0.2, 0.25, 1.0),
    Vec4(-0.2, 0.2, 0.25, 1.0), Vec4(-0.25, 0.2, 0.2, 1.0), Vec4(-0.25, -0.2, 0.2, 1.0),
    Vec4(-0.2, 0.2, 0.25, 1.0), Vec4(-0.25, -0.2, 0.2, 1.0), Vec4(-0.2, -0.2, 0.25, 1.0)
  ]

  /** The angle after i quarter turns, accumulated as theta is: 0, then + pi / 2 each turn. */
  function Quarter(i: nat): real {
    if i == 0 then 0.0 else Quarter(i - 1) + Pi / 2.0
  }

  /** src turned by each of the first n quarter turns about y, one copy after another. */
  function Turns(yRot: real -> (Vec4 -> Vec4), src: seq<Vec4>, n: nat): seq<Vec4> {
    if n == 0 then [] else Turns(yRot, src, n - 1) + MapVec(yRot(Quarter(n - 1)), src)
  }

  /** The vertices buildSmallCube writes: four side faces, top, bottom, then the edges on all four sides. */
  function SmallCubeVerts(yRot: real -> (Vec4 -> Vec4), xRot: real -> (Vec4 -> Vec4)): seq<Vec4> {
    Turns(yRot, FaceRef, 4)
    + MapVec(xRot(-Pi / 2.0), FaceRef)
    + MapVec(xRot(Pi / 2.0), FaceRef)
    + Turns(yRot, EdgeRef, 4)
  }

  /** Six copies of the colour of face i. */
  function FaceColors(order: seq<Color>): nat -> seq<Vec4> {
    (i: nat) => if i < |order| then Repeat(SideColor(order[i]), 6) else []
  }

  /** The colours buildSmallCube writes: six per face in face order, then black for every edge vertex. */
  function SmallCubeColors(order: seq<Color>): seq<Vec4> {
    Concat(FaceColors(order), |order|) + Repeat(SideColor(Black), 4 * |EdgeRef|)
  }

  /** A cubie has VERTS_PER_CUBE = 4 * 6 + 6 + 6 + 4 * 24 vertices. */
  lemma SmallCubeVertCount(yRot: real -> (Vec4 -> Vec4), xRot: real -> (Vec4 -> Vec4))
    ensures |SmallCubeVerts(yRot, xRot)| == VertsPerCube
  {
    TurnsLength(yRot, FaceRef, 4);
    TurnsLength(yRot, EdgeRef, 4);
  }

  /** n turned copies of src are n times as long as src. */
  lemma {:induction false} TurnsLength(yRot: real -> (Vec4 -> Vec4), src: seq<Vec4>, n: nat)
    ensures |Turns(yRot, src, n)| == n * |src|
  {
    if n > 0 {
      TurnsLength(yRot, src, n - 1);
    }
  }

  /** ... and as many colours: six for each of the six faces, then one per edge vertex. */
  lemma SmallCubeColorCount(order: seq<Color>)
    requires |order| == 6
    ensures |SmallCubeColors(order)| == VertsPerCube
  {
    FaceColorWidths(order);
    ConcatLength(FaceColors(order), 6, 6);
  }

  /** Every face's colour run has six entries. */
  lemma FaceColorWidths(order: seq<Color>)
    ensures forall i: nat :: i < |order| ==> |FaceColors(order)(i)| == 6
  {
    forall i: nat | i < |order|
      ensures |FaceColors(order)(i)| == 6
    {
      assert FaceColors(order)(i) == Repeat(SideColor(order[i]), 6);
    }
  }

  /** Vertex 6s + p of a cubie has the colour of face s; every edge vertex is black. */
  lemma SmallCubeColorLayout(order: seq<Color>, q: nat)
    requires |order| == 6 && q < VertsPerCube
    ensures |SmallCubeColors(order)| == VertsPerCube
    ensures q < 36 ==> SmallCubeColors(order)[q] == SideColor(order[q / 6])
    ensures q >= 36 ==> SmallCubeColors(order)[q] == Vec4(0.0, 0.0, 0.0, 1.0)
  {
    ConcatLength(FaceColors(order), 6, 6);
    if q < 36 {
      ConcatIndex(FaceColors(order), 6, 6, q / 6, q % 6);
    }
  }

  /** The inner loops of buildSmallCube: every vector of src turned by tr and appended. */
  method PushAll(list: VecList, tr: Vec4 -> Vec4, src: seq<Vec4>)
    modifies list
    ensures list.items == old(list.items) + MapVec(tr, src)
  {
    var j := 0;
    while j < |src|
      invariant 0 <= j <= |src|
      invariant list.items == old(list.items) + MapVec(tr, src[..j])
    {
      list.Push(tr(src[j]));
      assert MapVec(tr, src[..j + 1]) == MapVec(tr, src[..j]) + [tr(src[j])];
      j := j + 1;
    }
    assert src[..j] == src;
  }

  /** One quarter turn of src appended after the turns before it. */
  method PushTurn(list: VecList, yRot: real -> (Vec4 -> Vec4), src: seq<Vec4>, i: nat, tr: Vec4 -> Vec4, ghost base: seq<Vec4>)
    requires tr == yRot(Quarter(i)) && list.items == base + Turns(yRot, src, i)
    modifies list
    ensures list.items == base + Turns(yRot, src, i + 1)
  {
    PushAll(list, tr, src);
    AppendAssoc(base, Turns(yRot, src, i), MapVec(tr, src));
  }

  /** The four quarter turns of lines 593-598 and 659-667: src turned by 0, 90, 180 and 270 degrees. */
  method PushTurns(list: VecList, yRot: real -> (Vec4 -> Vec4), src: seq<Vec4>)
    modifies list
    ensures list.items == old(list.items) + Turns(yRot, src, 4)
  {
    var theta := 0.0;
    var tr := yRot(theta);
    var i := 0;
    while i < 4
      invariant 0 <= i <= 4 && theta == Quarter(i) && tr == yRot(theta)
      invariant list.items == old(list.items) + Turns(yRot, src, i)
    {
      PushTurn(list, yRot, src, i, tr, old(list.items));
      theta := theta + Pi / 2.0;
      tr := yRot(theta);
      i := i + 1;
    }
  }

  /**
   * buildSmallCube: both lists emptied, then the cubie's vertices and the
   * colours of color_order face by face, black for the edges.
   */
  method BuildSmallCube(verts: VecList, color: VecList, colorOrder: seq<Color>,
                        yRot: real -> (Vec4 -> Vec4), xRot: real -> (Vec4 -> Vec4))
    requires verts != color && |colorOrder| == 6
    modifies verts, color
    ensures verts.items == SmallCubeVerts(yRot, xRot)
    ensures color.items == SmallCubeColors(colorOrder)
  {
    verts.Reset();
    color.Reset();
    PushTurns(verts, yRot, FaceRef);
    assert verts.items == Turns(yRot, FaceRef, 4);
    PushAll(verts, xRot(-Pi / 2.0), FaceRef);
    PushAll(verts, xRot(Pi / 2.0), FaceRef);
    var edgeRef := EdgeRef;
    PushTurns(verts, yRot, edgeRef);
    PushFaceColors(color, colorOrder);
    assert color.items == Concat(FaceColors(colorOrder), 6);
    PushEdgeColors(color, |edgeRef|);
  }

  /** Lines 675-682: four black colours for every edge vertex. */
  method PushEdgeColors(color: VecList, n: nat)
    modifies color
    ensures color.items == old(color.items) + Repeat(SideColor(Black), 4 * n)
  {
    var i := 0;
    while i < n
      invariant 0 <= i <= n
      invariant color.items == old(color.items) + Repeat(SideColor(Black), 4 * i)
    {
      ghost var before := color.items;
      var black := Vec4(0.0, 0.0, 0.0, 1.0);
      color.Push(black);
      color.Push(black);
      color.Push(black);
      color.Push(black);
      assert color.items == before + [black, black, black, black];
      RepeatFour(black, 4 * i);
      i := i + 1;
    }
  }

  /** Four more copies. */
  lemma RepeatFour(v: Vec4, n: nat)
    ensures Repeat(v, n) + [v, v, v, v] == Repeat(v, n + 4)
  {
  }

  /** Lines 670-674: colorSide for each of the six faces. */
  method PushFaceColors(color: VecList, colorOrder: seq<Color>)
    requires |colorOrder| == 6
    modifies color
    ensures color.items == old(color.items) + Concat(FaceColors(colorOrder), 6)
  {
    var i := 0;
    while i < 6
      invariant 0 <= i <= 6
      invariant color.items == old(color.items) + Concat(FaceColors(colorOrder), i)
    {
      ColorSide(colorOrder[i], color);
      ConcatStep(FaceColors(colorOrder), i);
      i := i + 1;
    }
  }

  // ---------------------------------------------------------------------------
  // The whole cube

  /** The arguments of translate. */
  datatype Shift = Shift(dx: real, dy: real, dz: real)

  /** Cubie n's translation (0.5k - 0.5, -0.5i + 0.5, 0.5j - 0.5), n = 9i + 3j + k. */
  function Offset(n: nat): Shift {
    var i, j, k := n / 9, n / 3 % 3, n % 3;
    Shift(0.5 * (k as real) - 0.5, -0.5 * (i as real) + 0.5, 0.5 * (j as real) - 0.5)
  }

  /** Each component of a cubie's translation is -0.5, 0 or 0.5, and no two cubies share one. */
  lemma OffsetsDistinct(n: nat, n': nat)
    requires n < 27 && n' < 27
    ensures Offset(n).dx in {-0.5, 0.0, 0.5} && Offset(n).dy in {-0.5, 0.0, 0.5} && Offset(n).dz in {-0.5, 0.0, 0.5}
    ensures Offset(n) == Offset(n') ==> n == n'
  {
    if Offset(n) == Offset(n') {
      assert n % 3 == n' % 3 && n / 9 == n' / 9 && n / 3 % 3 == n' / 3 % 3;
    }
  }

  /** Row n of color_orders names six faces. */
  lemma ColorOrderRow(n: nat)
    requires n < 27
    ensures |ColorOrders| == 27 && |ColorOrders[n]| == 6
  {
    ColorOrdersFollowLayers(n / 9, n / 3 % 3, n % 3);
  }

  /** A colour table shaped like color_orders: 27 rows of six faces. */
  predicate Shaped(orders: seq<seq<Color>>) {
    |orders| == 27 && forall n :: 0 <= n < 27 ==> |orders[n]| == 6
  }

  /** color_orders has that shape. */
  lemma ColorOrdersShaped()
    ensures Shaped(ColorOrders)
  {
    forall n | 0 <= n < 27
      ensures |ColorOrders| == 27 && |ColorOrders[n]| == 6
    {
      ColorOrderRow(n);
    }
  }

  /** The first n cubies' vertices, VERTS_PER_CUBE each: cubie q is the small cube moved by Offset(q). */
  ghost predicate VertsUpTo(items: seq<Vec4>, n: nat, translate: Shift -> (Vec4 -> Vec4), yRot: real -> (Vec4 -> Vec4), xRot: real -> (Vec4 -> Vec4)) {
    |items| == n * VertsPerCube &&
    forall q :: 0 <= q < n ==>
      items[q * VertsPerCube .. q * VertsPerCube + VertsPerCube] == MapVec(translate(Offset(q)), SmallCubeVerts(yRot, xRot))
  }

  /** The first n cubies' colours, VERTS_PER_CUBE each: cubie q has the colours of row q of the table. */
  ghost predicate ColorsUpTo(items: seq<Vec4>, n: nat, orders: seq<seq<Color>>) {
    |items| == n * VertsPerCube && n <= |orders| &&
    forall q :: 0 <= q < n ==>
      items[q * VertsPerCube .. q * VertsPerCube + VertsPerCube] == SmallCubeColors(orders[q])
  }

  /** Appending a block of VERTS_PER_CUBE after n blocks keeps the first n and adds it as block n. */
  lemma AppendBlock(s: seq<Vec4>, b: seq<Vec4>, n: nat, q: nat)
    requires |s| == n * VertsPerCube && |b| == VertsPerCube && q <= n
    ensures q * VertsPerCube + VertsPerCube <= |s + b|
    ensures q < n ==> (s + b)[q * VertsPerCube .. q * VertsPerCube + VertsPerCube] == s[q * VertsPerCube .. q * VertsPerCube + VertsPerCube]
    ensures q == n ==> (s + b)[q * VertsPerCube .. q * VertsPerCube + VertsPerCube] == b
  {
  }

  /**
   * The innermost loop of buildCube: the cubie's vertices translated by tr
   * and its colours appended, in step.
   */
  method PushCubie(vertList: VecList, colorList: VecList, tr: Vec4 -> Vec4, small: seq<Vec4>, smallColors: seq<Vec4>)
    requires vertList != colorList && |small| == |smallColors|
    modifies vertList, colorList
    ensures vertList.items == old(vertList.items) + MapVec(tr, small)
    ensures colorList.items == old(colorList.items) + smallColors
  {
    var l := 0;
    while l < |small|
      invariant 0 <= l <= |small|
      invariant vertList.items == old(vertList.items) + MapVec(tr, small[..l])
      invariant colorList.items == old(colorList.items) + smallColors[..l]
    {
      vertList.Push(tr(small[l]));
      colorList.Push(smallColors[l]);
      assert MapVec(tr, small[..l + 1]) == MapVec(tr, small[..l]) + [tr(small[l])];
      assert smallColors[..l + 1] == smallColors[..l] + [smallColors[l]];
      l := l + 1;
    }
    assert small[..l] == small && smallColors[..l] == smallColors;
  }

  /** One pass of buildCube's innermost loop: cubie n = 9i + 3j + k built and appended. */
  method AddCubie(vertList: VecList, colorList: VecList, smallVerts: VecList, smallColors: VecList, n: nat,
                  translate: Shift -> (Vec4 -> Vec4), yRot: real -> (Vec4 -> Vec4), xRot: real -> (Vec4 -> Vec4),
                  orders: seq<seq<Color>>)
    requires n < 27 && Shaped(orders)
    requires vertList != colorList && smallVerts != smallColors
    requires smallVerts != vertList && smallVerts != colorList && smallColors != vertList && smallColors != colorList
    requires VertsUpTo(vertList.items, n, translate, yRot, xRot)
    requires ColorsUpTo(colorList.items, n, orders)
    modifies vertList, colorList, smallVerts, smallColors
    ensures VertsUpTo(vertList.items, n + 1, translate, yRot, xRot)
    ensures ColorsUpTo(colorList.items, n + 1, orders)
  {
    ghost var vs, cs := vertList.items, colorList.items;
    var tr := translate(Offset(n));
    BuildSmallCube(smallVerts, smallColors, orders[n], yRot, xRot);
    SmallCubeVertCount(yRot, xRot);
    SmallCubeColorCount(orders[n]);
    PushCubie(vertList, colorList, tr, smallVerts.items, smallColors.items);
    forall q | 0 <= q <= n
      ensures vertList.items[q * VertsPerCube .. q * VertsPerCube + VertsPerCube] == MapVec(translate(Offset(q)), SmallCubeVerts(yRot, xRot))
    {
      AppendBlock(vs, MapVec(tr, SmallCubeVerts(yRot, xRot)), n, q);
    }
    forall q | 0 <= q <= n
      ensures colorList.items[q * VertsPerCube .. q * VertsPerCube + VertsPerCube] == SmallCubeColors(orders[q])
    {
      AppendBlock(cs, SmallCubeColors(orders[n]), n, q);
    }
  }

  /**
   * buildCube's three nested loops over layer i, row j and column k: they
   * visit n = 9i + 3j + k = 0, 1, ..., 26 in increasing order, so cubie n is
   * the n-th one written.
   */
  method BuildLists(vertList: VecList, colorList: VecList,
                    translate: Shift -> (Vec4 -> Vec4), yRot: real -> (Vec4 -> Vec4), xRot: real -> (Vec4 -> Vec4),
                    orders: seq<seq<Color>>)
    requires Shaped(orders)
    requires vertList != colorList && vertList.items == [] && colorList.items == []
    modifies vertList, colorList
    ensures VertsUpTo(vertList.items, 27, translate, yRot, xRot)
    ensures ColorsUpTo(colorList.items, 27, orders)
  {
    var smallVerts := new VecList();
    var smallColors := new VecList();
    for n := 0 to 27
      invariant VertsUpTo(vertList.items, n, translate, yRot, xRot)
      invariant ColorsUpTo(colorList.items, n, orders)
    {
      AddCubie(vertList, colorList, smallVerts, smallColors, n, translate, yRot, xRot, orders);
    }
  }

  /**
   * buildCube: the 27 cubies built, then the lists become the mesh's
   * vertices and colours; the n-th block of VERTS_PER_CUBE holds cubie n
   * moved into place, coloured by row n of color_orders.
   */
  method BuildCube(m: Mesh, translate: Shift -> (Vec4 -> Vec4), yRot: real -> (Vec4 -> Vec4), xRot: real -> (Vec4 -> Vec4))
    requires m.Valid()
    modifies m
    ensures m.Valid() && fresh(m.vertices) && fresh(m.colors)
    ensures VertsUpTo(m.Vertices(), 27, translate, yRot, xRot)
    ensures ColorsUpTo(m.Colors(), 27, ColorOrders)
    ensures m.numVertices == m.numColors == 27 * VertsPerCube
    ensures m.texCoords == old(m.texCoords) && m.numTexCoords == old(m.numTexCoords)
  {
    var vertList := new VecList();
    var colorList := new VecList();
    ColorOrdersShaped();
    BuildLists(vertList, colorList, translate, yRot, xRot, ColorOrders);
    Install(m, vertList.items, colorList.items);
  }

  /** The transfer at the end of buildCube: the lists copied into fresh vertex and colour buffers. */
  method Install(m: Mesh, vs: seq<Vec4>, cs: seq<Vec4>)
    requires m.Valid()
    modifies m
    ensures m.Valid() && fresh(m.vertices) && fresh(m.colors)
    ensures m.Vertices() == vs && m.Colors() == cs
    ensures m.numVertices == |vs| && m.numColors == |cs|
    ensures m.texCoords == old(m.texCoords) && m.numTexCoords == old(m.numTexCoords)
  {
    m.vertices := new Vec4[|vs|](p requires 0 <= p < |vs| => vs[p]);
    m.colors := new Vec4[|cs|](p requires 0 <= p < |cs| => cs[p]);
    m.numVertices := |vs|;
    m.numColors := |cs|;
    assert m.vertices[..] == vs && m.colors[..] == cs;
  }

  // ---------------------------------------------------------------------------
  // Drawing

  /** One glDrawArrays call: first vertex and count. */
  datatype DrawCall = DrawCall(first: nat, count: nat)

  /** display's loop: one call per cubie, over [132n, 132n + 132). */
  method DrawCalls() returns (calls: seq<DrawCall>)
    ensures |calls| == 27
    ensures forall n :: 0 <= n < 27 ==> calls[n] == DrawCall(n * VertsPerCube, VertsPerCube)
  {
    calls := [];
    for i := 0 to 27
      invariant |calls| == i
      invariant forall n :: 0 <= n < i ==> calls[n] == DrawCall(n * VertsPerCube, VertsPerCube)
    {
      calls := calls + [DrawCall(i * VertsPerCube, VertsPerCube)];
    }
  }

  /**
   * display draws what buildCube built: draw call n covers exactly block n
   * of the vertex buffer, which is cubie n moved into place.
   */
  lemma {:induction false} DrawCallsDrawCubies(calls: seq<DrawCall>, items: seq<Vec4>, translate: Shift -> (Vec4 -> Vec4), yRot: real -> (Vec4 -> Vec4), xRot: real -> (Vec4 -> Vec4))
    requires |calls| == 27 && forall n :: 0 <= n < 27 ==> calls[n] == DrawCall(n * VertsPerCube, VertsPerCube)
    requires VertsUpTo(items, 27, translate, yRot, xRot)
    ensures forall n :: 0 <= n < 27 ==>
      && calls[n].first + calls[n].count <= |items|
      && items[calls[n].first .. calls[n].first + calls[n].count] == MapVec(translate(Offset(n)), SmallCubeVerts(yRot, xRot))
  {
    forall n | 0 <= n < 27
      ensures calls[n].first + calls[n].count <= |items|
      ensures items[calls[n].first .. calls[n].first + calls[n].count] == MapVec(translate(Offset(n)), SmallCubeVerts(yRot, xRot))
    {
      assert n * VertsPerCube + VertsPerCube <= 27 * VertsPerCube;
    }
  }

  // ---------------------------------------------------------------------------
  // Arrow keys

  /** GLUT's codes for the arrow keys. */
  const KeyLeft: int := 100
  const KeyUp: int := 101
  const KeyRight: int := 102
  const KeyDown: int := 103

  /** The four movement flags, all false at start. */
  class Arrows {
    var upFlag: bool
    var downFlag: bool
    var rightFlag: bool
    var leftFlag: bool

    constructor ()
      ensures !upFlag && !downFlag && !rightFlag && !leftFlag
    {
      upFlag, downFlag, rightFlag, leftFlag := false, false, false, false;
    }

    /** keySpecial: the pressed arrow's flag is set; the others are kept. */
    method KeySpecial(key: int)
      modifies this
      ensures upFlag == (old(upFlag) || key == KeyUp)
      ensures downFlag == (old(downFlag) || key == KeyDown)
      ensures rightFlag == (old(rightFlag) || key == KeyRight)
      ensures leftFlag == (old(leftFlag) || key == KeyLeft)
    {
      if key == KeyUp {
        upFlag := true;
      }
      if key == KeyDown {
        downFlag := true;
      }
      if key == KeyRight {
        rightFlag := true;
      }
      if key == KeyLeft {
        leftFlag := true;
      }
    }

    /** keySpecialUp: the released arrow's flag is cleared; the others are kept. */
    method KeySpecialUp(key: int)
      modifies this
      ensures upFlag == (old(upFlag) && key != KeyUp)
      ensures downFlag == (old(downFlag) && key != KeyDown)
      ensures rightFlag == (old(rightFlag) && key != KeyRight)
      ensures leftFlag == (old(leftFlag) && key != KeyLeft)
    {
      if key == KeyUp {
        upFlag := false;
      }
      if key == KeyDown {
        downFlag := false;
      }
      if key == KeyRight {
        rightFlag := false;
      }
      if key == KeyLeft {
        leftFlag := false;
      }
    }
  }
}
