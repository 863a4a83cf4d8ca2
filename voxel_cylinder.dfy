/** VoxelCylinder's mesh construction: the vertex layout (bottom ring, bottom
    centre, top ring, top centre) and the triangle index list. Positions are
    named by where they sit rather than computed; the UV list has one entry
    per vertex. */
module CylinderMesh {

  datatype Level = Bottom | Top

  /** A vertex by position: the i-th point of a ring, or a face centre. */
  datatype Vertex = RingVertex(level: Level, i: nat) | CenterVertex(level: Level)

  /** The number of ring points; a non-positive `segments` runs no loop. */
  function Segments(segments: int): nat
  {
    if segments > 0 then segments else 0
  }

  function Ring(level: Level, n: nat): (r: seq<Vertex>)
    ensures |r| == n && forall i :: 0 <= i < n ==> r[i] == RingVertex(level, i)
  {
    seq(n, i requires 0 <= i < n => RingVertex(level, i))
  }

  /** The vertex list. */
  function CylinderVertices(segments: int): seq<Vertex>
  {
    var n := Segments(segments);
    Ring(Bottom, n) + [CenterVertex(Bottom)] + Ring(Top, n) + [CenterVertex(Top)]
  }

  /** There are 2·segments + 2 vertices: the bottom ring from 0, the bottom
      centre at segments, the top ring from segments + 1 and the top centre
      at 2·segments + 1. */
  lemma VertexLayout(segments: int)
    ensures var n := Segments(segments);
      var v := CylinderVertices(segments);
      |v| == 2 * n + 2 && v[n] == CenterVertex(Bottom) && v[2 * n + 1] == CenterVertex(Top)
      && (forall i :: 0 <= i < n ==> v[i] == RingVertex(Bottom, i) && v[n + 1 + i] == RingVertex(Top, i))
  {
  }

  /** The ring neighbour of point i. */
  function NextOnRing(i: nat, n: nat): nat
    requires n > 0
  {
    (i + 1) % n
  }

  lemma NextOnRingWraps(i: nat, n: nat)
    requires 0 <= i < n
    ensures NextOnRing(i, n) == (if i + 1 < n then i + 1 else 0)
  {
  }

  function BottomTriangle(n: nat, i: nat): seq<int>
    requires n > 0
  {
    [n, i, NextOnRing(i, n)]
  }

  function TopTriangle(n: nat, i: nat): seq<int>
    requires n > 0
  {
    [2 * n + 1, n + 1 + NextOnRing(i, n), n + 1 + i]
  }

  function SideTriangles(n: nat, i: nat): seq<int>
    requires n > 0
  {
    var bottomNext := NextOnRing(i, n);
    [i, n + 1 + i, bottomNext, bottomNext, n + 1 + i, n + 1 + bottomNext]
  }

  /** The first k triangles of each face. */
  function BottomFace(n: nat, k: nat): seq<int>
    requires k <= n
  {
    if k == 0 then [] else BottomFace(n, k - 1) + BottomTriangle(n, k - 1)
  }

  function TopFace(n: nat, k: nat): seq<int>
    requires k <= n
  {
    if k == 0 then [] else TopFace(n, k - 1) + TopTriangle(n, k - 1)
  }

  function SideFaces(n: nat, k: nat): seq<int>
    requires k <= n
  {
    if k == 0 then [] else SideFaces(n, k - 1) + SideTriangles(n, k - 1)
  }

  /** The triangle list: bottom face, top face, sides. */
  function CylinderTriangles(segments: int): seq<int>
  {
    var n := Segments(segments);
    BottomFace(n, n) + TopFace(n, n) + SideFaces(n, n)
  }

  predicate IndicesBelow(t: seq<int>, bound: int)
  {
    forall j :: 0 <= j < |t| ==> 0 <= t[j] < bound
  }

  lemma IndicesBelowAppend(a: seq<int>, b: seq<int>, bound: int)
    requires IndicesBelow(a, bound) && IndicesBelow(b, bound)
    ensures IndicesBelow(a + b, bound)
  {
  }

  /** Each triangle of iteration i names vertices below 2·n + 2. */
  lemma TriangleRanges(n: nat, i: nat)
    requires i < n
    ensures IndicesBelow(BottomTriangle(n, i), 2 * n + 2)
    ensures IndicesBelow(TopTriangle(n, i), 2 * n + 2)
    ensures IndicesBelow(SideTriangles(n, i), 2 * n + 2)
  {
    NextOnRingWraps(i, n);
  }

  lemma {:induction false} FacesSizeAndRange(n: nat, k: nat)
    requires k <= n
    ensures |BottomFace(n, k)| == 3 * k && |TopFace(n, k)| == 3 * k && |SideFaces(n, k)| == 6 * k
    ensures IndicesBelow(BottomFace(n, k), 2 * n + 2)
    ensures IndicesBelow(TopFace(n, k), 2 * n + 2)
    ensures IndicesBelow(SideFaces(n, k), 2 * n + 2)
  {
    if k > 0 {
      FacesSizeAndRange(n, k - 1);
      TriangleRanges(n, k - 1);
      IndicesBelowAppend(BottomFace(n, k - 1), BottomTriangle(n, k - 1), 2 * n + 2);
      IndicesBelowAppend(TopFace(n, k - 1), TopTriangle(n, k - 1), 2 * n + 2);
      IndicesBelowAppend(SideFaces(n, k - 1), SideTriangles(n, k - 1), 2 * n + 2);
    }
  }

  /** 4·segments triangles, so 12·segments indices, every one naming an
      existing vertex. */
  lemma TrianglesWellFormed(segments: int)
    ensures |CylinderTriangles(segments)| == 12 * Segments(segments)
    ensures |CylinderTriangles(segments)| % 3 == 0
    ensures IndicesBelow(CylinderTriangles(segments), |CylinderVertices(segments)|)
  {
    var n := Segments(segments);
    FacesSizeAndRange(n, n);
    VertexLayout(segments);
  }

  /** The triangles join the intended vertices: bottom triangles fan from the
      bottom centre over consecutive bottom ring points, top triangles from the
      top centre with the two ring points in the opposite order, and each side
      quad joins ring point i and its neighbour on both rings. */
  lemma TrianglesJoinNeighbours(segments: int, i: nat)
    requires 0 <= i < Segments(segments)
    ensures var n := Segments(segments);
      var v := CylinderVertices(segments);
      var next := if i + 1 < n then i + 1 else 0;
      var b := BottomTriangle(n, i);
      var t := TopTriangle(n, i);
      var s := SideTriangles(n, i);
      v[b[0]] == CenterVertex(Bottom) && v[b[1]] == RingVertex(Bottom, i) && v[b[2]] == RingVertex(Bottom, next)
      && v[t[0]] == CenterVertex(Top) && v[t[1]] == RingVertex(Top, next) && v[t[2]] == RingVertex(Top, i)
      && v[s[0]] == RingVertex(Bottom, i) && v[s[1]] == RingVertex(Top, i) && v[s[2]] == RingVertex(Bottom, next)
      && v[s[3]] == RingVertex(Bottom, next) && v[s[4]] == RingVertex(Top, i) && v[s[5]] == RingVertex(Top, next)
  {
    VertexLayout(segments);
    NextOnRingWraps(i, Segments(segments));
  }

  /** CreateCylinderMesh's three lists. */
  method CreateCylinderMesh(segments: int) returns (vertices: seq<Vertex>, triangles: seq<int>, uvs: seq<Vertex>)
    ensures vertices == CylinderVertices(segments)
    ensures triangles == CylinderTriangles(segments)
    ensures IndicesBelow(triangles, |vertices|)
    ensures uvs == vertices
  {
    var n := Segments(segments);
    vertices := [];
    var i := 0;
    while i < segments
      invariant 0 <= i <= n && vertices == Ring(Bottom, i)
    {
      vertices := vertices + [RingVertex(Bottom, i)];
      i := i + 1;
    }
    vertices := vertices + [CenterVertex(Bottom)];
    i := 0;
    while i < segments
      invariant 0 <= i <= n && vertices == Ring(Bottom, n) + [CenterVertex(Bottom)] + Ring(Top, i)
    {
      vertices := vertices + [RingVertex(Top, i)];
      i := i + 1;
    }
    vertices := vertices + [CenterVertex(Top)];

    triangles := [];
    var bottomCenterIndex := segments;
    i := 0;
    while i < segments
      invariant 0 <= i <= n && triangles == BottomFace(n, i)
    {
      var next := (i + 1) % segments;
      triangles := triangles + [bottomCenterIndex, i, next];
      i := i + 1;
    }
    var topCenterIndex := segments * 2 + 1;
    var topStartIndex := segments + 1;
    i := 0;
    while i < segments
      invariant 0 <= i <= n && triangles == BottomFace(n, n) + TopFace(n, i)
    {
      var current := topStartIndex + i;
      var next := topStartIndex + ((i + 1) % segments);
      triangles := triangles + [topCenterIndex, next, current];
      i := i + 1;
    }
    i := 0;
    while i < segments
      invariant 0 <= i <= n && triangles == BottomFace(n, n) + TopFace(n, n) + SideFaces(n, i)
    {
      var bottomCurrent := i;
      var bottomNext := (i + 1) % segments;
      var topCurrent := topStartIndex + i;
      var topNext := topStartIndex + ((i + 1) % segments);
      triangles := triangles + [bottomCurrent, topCurrent, bottomNext];
      triangles := triangles + [bottomNext, topCurrent, topNext];
      i := i + 1;
    }
    TrianglesWellFormed(segments);

    uvs := [];
    i := 0;
    while i < |vertices|
      invariant 0 <= i <= |vertices| && uvs == vertices[..i]
    {
      uvs := uvs + [vertices[i]];
      i := i + 1;
    }
  }
}
