/**
  The instanced quad meshes: `GsplatSettings.CreateMeshInstance` and the importer both fill a
  vertex array with four corners per quad (z holding the quad number's bits) and an index array
  with two triangles per quad. They differ only in corner order and triangle pattern.
*/
module QuadMesh {
  import opened Graphics
  import opened Ints

  /** The corner order of one quad and the corner numbers of its two triangles. */
  datatype Layout = Layout(corners: seq<(int, int)>, triangles: seq<nat>)

  predicate WellFormed(l: Layout)
  {
    |l.corners| == 4 && |l.triangles| == 6 && forall t :: 0 <= t < 6 ==> l.triangles[t] < 4
  }

  /** `CreateMeshInstance`: (-1,-1), (1,-1), (-1,1), (1,1) and triangles (0,1,2), (1,3,2). */
  const InstanceLayout := Layout([(-1, -1), (1, -1), (-1, 1), (1, 1)], [0, 1, 2, 1, 3, 2])

  /** The importer: (-1,-1), (1,-1), (1,1), (-1,1) and triangles (0,1,2), (0,2,3). */
  const ImportLayout := Layout([(-1, -1), (1, -1), (1, 1), (-1, 1)], [0, 1, 2, 0, 2, 3])

  /** Vertex `k` of the mesh: corner `k % 4` of quad `k / 4`, whose z bits are the quad number. */
  function VertexAt(l: Layout, k: nat): QuadVertex
    requires |l.corners| == 4
  {
    var c := l.corners[k % 4];
    QuadVertex(c.0, c.1, k / 4)
  }

  /** Index `k` of the mesh: the vertex of corner `triangles[k % 6]` of quad `k / 6`. */
  function IndexAt(l: Layout, k: nat): int
    requires |l.triangles| == 6
  {
    4 * (k / 6) + l.triangles[k % 6]
  }

  /** Four vertices and six indices per quad, quad by quad. */
  method FillQuads(n: nat, l: Layout) returns (vertices: array<QuadVertex>, indices: array<int>)
    requires WellFormed(l)
    ensures fresh(vertices) && fresh(indices)
    ensures vertices.Length == 4 * n && indices.Length == 6 * n
    ensures forall k :: 0 <= k < 4 * n ==> vertices[k] == VertexAt(l, k)
    ensures forall k :: 0 <= k < 6 * n ==> indices[k] == IndexAt(l, k)
  {
    vertices := new QuadVertex[4 * n](_ => QuadVertex(0, 0, 0));
    indices := new int[6 * n](_ => 0);
    for i := 0 to n
      invariant forall k :: 0 <= k < 4 * i ==> vertices[k] == VertexAt(l, k)
      invariant forall k :: 0 <= k < 6 * i ==> indices[k] == IndexAt(l, k)
    {
      WriteQuad(vertices, indices, l, i);
    }
  }

  /** Quad `i`: its four corners, then its two triangles copied in at `6 * i`. */
  method WriteQuad(vertices: array<QuadVertex>, indices: array<int>, l: Layout, i: nat)
    requires WellFormed(l)
    requires 4 * i + 4 <= vertices.Length && 6 * i + 6 <= indices.Length
    modifies vertices, indices
    ensures forall k :: 0 <= k < vertices.Length ==>
      vertices[k] == if 4 * i <= k < 4 * i + 4 then VertexAt(l, k) else old(vertices[k])
    ensures forall k :: 0 <= k < indices.Length ==>
      indices[k] == if 6 * i <= k < 6 * i + 6 then IndexAt(l, k) else old(indices[k])
  {
    WriteCorners(vertices, l, i);
    WriteTriangles(indices, l, i);
  }

  /** The four corners of quad `i`, at `4 * i`. */
  method WriteCorners(vertices: array<QuadVertex>, l: Layout, i: nat)
    requires WellFormed(l) && 4 * i + 4 <= vertices.Length
    modifies vertices
    ensures forall k :: 0 <= k < vertices.Length ==>
      vertices[k] == if 4 * i <= k < 4 * i + 4 then VertexAt(l, k) else old(vertices[k])
  {
    for c := 0 to 4
      invariant forall k :: 0 <= k < vertices.Length ==>
        vertices[k] == if 4 * i <= k < 4 * i + c then VertexAt(l, k) else old(vertices[k])
    {
      DivModUnique(4 * i + c, 4, i, c);
      vertices[4 * i + c] := QuadVertex(l.corners[c].0, l.corners[c].1, i);
    }
  }

  /** The two triangles of quad `i`, at `6 * i`, naming vertices from `4 * i` on. */
  method WriteTriangles(indices: array<int>, l: Layout, i: nat)
    requires WellFormed(l) && 6 * i + 6 <= indices.Length
    modifies indices
    ensures forall k :: 0 <= k < indices.Length ==>
      indices[k] == if 6 * i <= k < 6 * i + 6 then IndexAt(l, k) else old(indices[k])
  {
    for t := 0 to 6
      invariant forall k :: 0 <= k < indices.Length ==>
        indices[k] == if 6 * i <= k < 6 * i + t then IndexAt(l, k) else old(indices[k])
    {
      DivModUnique(6 * i + t, 6, i, t);
      indices[6 * i + t] := 4 * i + l.triangles[t];
    }
  }

  /** Every index names a vertex of the same quad as its triangle, so all are below `4 * n`. */
  lemma IndicesInRange(l: Layout, n: nat, k: nat)
    requires WellFormed(l) && k < 6 * n
    ensures 4 * (k / 6) <= IndexAt(l, k) < 4 * (k / 6) + 4 && IndexAt(l, k) < 4 * n
  {
    assert k / 6 < n;
  }

  /** Twice the signed area of triangle `t` (0 or 1) of a quad: positive when counter-clockwise. */
  function Winding(l: Layout, t: nat): int
    requires WellFormed(l) && t < 2
  {
    var a, b, c := l.corners[l.triangles[3 * t]], l.corners[l.triangles[3 * t + 1]], l.corners[l.triangles[3 * t + 2]];
    (b.0 - a.0) * (c.1 - a.1) - (c.0 - a.0) * (b.1 - a.1)
  }

  /** The corners one triangle uses. */
  function TriangleCorners(l: Layout, t: nat): set<nat>
    requires WellFormed(l) && t < 2
  {
    {l.triangles[3 * t], l.triangles[3 * t + 1], l.triangles[3 * t + 2]}
  }

  /**
    A layout draws the whole square: each triangle is counter-clockwise with half the square's
    area (the 2x2 square has area 4, so twice a half is 4), and the two triangles use all four
    corners between them.
  */
  predicate DrawsSquare(l: Layout)
    requires WellFormed(l)
  {
    Winding(l, 0) == 4 && Winding(l, 1) == 4 &&
    TriangleCorners(l, 0) + TriangleCorners(l, 1) == {0, 1, 2, 3}
  }

  /** The settings' quads and the importer's quads differ in order but draw the same square. */
  lemma LayoutsAgree()
    ensures WellFormed(InstanceLayout) && DrawsSquare(InstanceLayout)
    ensures WellFormed(ImportLayout) && DrawsSquare(ImportLayout)
  {
    InstanceSquare();
    ImportSquare();
  }

  lemma InstanceSquare()
    ensures WellFormed(InstanceLayout) && DrawsSquare(InstanceLayout)
  {
    var l := InstanceLayout;
    assert l.triangles[0] == 0 && l.triangles[1] == 1 && l.triangles[2] == 2;
    assert l.triangles[3] == 1 && l.triangles[4] == 3 && l.triangles[5] == 2;
    assert TriangleCorners(l, 0) == {0, 1, 2} && TriangleCorners(l, 1) == {1, 3, 2};
  }

  lemma ImportSquare()
    ensures WellFormed(ImportLayout) && DrawsSquare(ImportLayout)
  {
    var l := ImportLayout;
    assert l.triangles[0] == 0 && l.triangles[1] == 1 && l.triangles[2] == 2;
    assert l.triangles[3] == 0 && l.triangles[4] == 2 && l.triangles[5] == 3;
    assert TriangleCorners(l, 0) == {0, 1, 2} && TriangleCorners(l, 1) == {0, 2, 3};
  }
}
