/**
 * The meshes of shapes.js: flat arrays of vertex coordinates and normal
 * coordinates (three numbers per vertex) and a flat array of triangle
 * indices (three per triangle) into the vertex list.
 *
 * The sphere and the cylinder take the sine and cosine of each band's angle
 * from a `BandTrig` value indexed by the loop counter, in place of the
 * source's Math.sin and Math.cos of lat * pi / latBands, 2 pi lon / lonBands
 * and 2 pi i / segments.
 */
module Shapes {

  datatype Mesh = Mesh(vertices: seq<real>, normals: seq<real>, indices: seq<int>)

  /** Sine and cosine of the angle of band number k. */
  datatype BandTrig = BandTrig(sin: int -> real, cos: int -> real)

  /** Every element of s lies in [lo, hi). */
  predicate AllIn(s: seq<int>, lo: int, hi: int)
  {
    forall k :: 0 <= k < |s| ==> lo <= s[k] < hi
  }

  lemma AllInConcat(s: seq<int>, t: seq<int>, lo: int, hi: int)
    requires AllIn(s, lo, hi) && AllIn(t, lo, hi)
    ensures AllIn(s + t, lo, hi)
  {
  }

  lemma AllInWiden(s: seq<int>, lo: int, hi: int, lo': int, hi': int)
    requires AllIn(s, lo, hi) && lo' <= lo && hi <= hi'
    ensures AllIn(s, lo', hi')
  {
  }

  /** Vertex number v of a mesh: coordinates 3v, 3v + 1, 3v + 2. */
  function VertexAt(coords: seq<real>, v: int): seq<real>
    requires 0 <= v && 3 * v + 3 <= |coords|
  {
    coords[3 * v .. 3 * v + 3]
  }

  // ---------------------------------------------------------------------
  // Cube
  // ---------------------------------------------------------------------

  /** The corners of the cube: the front face (z = 1) then the back face (z = -1). */
  const CubeVertices: seq<real> :=
    [-1.0, -1.0, 1.0, 1.0, -1.0, 1.0, 1.0, 1.0, 1.0, -1.0, 1.0, 1.0,
     -1.0, -1.0, -1.0, -1.0, 1.0, -1.0, 1.0, 1.0, -1.0, 1.0, -1.0, -1.0]

  /** One normal per corner: (0, 0, 1) on the front face, (0, 0, -1) on the back. */
  const CubeNormals: seq<real> :=
    [0.0, 0.0, 1.0, 0.0, 0.0, 1.0, 0.0, 0.0, 1.0, 0.0, 0.0, 1.0,
     0.0, 0.0, -1.0, 0.0, 0.0, -1.0, 0.0, 0.0, -1.0, 0.0, 0.0, -1.0]

  /** Two triangles for each of the six faces. */
  const CubeIndices: seq<int> :=
    [0, 1, 2, 0, 2, 3,
     4, 5, 6, 4, 6, 7,
     4, 0, 3, 4, 3, 5,
     1, 7, 6, 1, 6, 2,
     3, 2, 6, 3, 6, 5,
     4, 7, 1, 4, 1, 0]

  /**
   * createCube(): eight corners with one normal each and twelve
   * triangles, all as literal arrays.
   */
  function CreateCube(): (m: Mesh)
    ensures |m.vertices| == |m.normals| == 3 * 8
    ensures |m.indices| == 3 * 12
  {
    Mesh(CubeVertices, CubeNormals, CubeIndices)
  }

  /** Every cube index names one of the eight corners. */
  lemma CubeIndicesInRange()
    ensures AllIn(CreateCube().indices, 0, 8)
  {
  }

  /** The corners are those of [-1, 1]^3: every coordinate is 1 or -1. */
  lemma CubeCorners()
    ensures forall k :: 0 <= k < |CreateCube().vertices| ==>
              CreateCube().vertices[k] == 1.0 || CreateCube().vertices[k] == -1.0
  {
  }

  // ---------------------------------------------------------------------
  // Sphere
  // ---------------------------------------------------------------------

  /** The point (and normal) at latitude band i, longitude band j: (cos p sin t, cos t, sin p sin t). */
  function SpherePoint(lat: BandTrig, lon: BandTrig, i: int, j: int): seq<real>
  {
    var st := lat.sin(i);
    var ct := lat.cos(i);
    var sp := lon.sin(j);
    var cp := lon.cos(j);
    [cp * st, ct, sp * st]
  }

  /** The first `count` points of latitude row i. */
  function SphereRow(lat: BandTrig, lon: BandTrig, i: int, count: nat): (r: seq<real>)
    ensures |r| == 3 * count
  {
    if count == 0 then [] else SphereRow(lat, lon, i, count - 1) + SpherePoint(lat, lon, i, count - 1)
  }

  /** The first `rows` latitude rows, each of n + 1 points. */
  function SphereVertices(lat: BandTrig, lon: BandTrig, rows: nat, n: nat): seq<real>
  {
    if rows == 0 then [] else SphereVertices(lat, lon, rows - 1, n) + SphereRow(lat, lon, rows - 1, n + 1)
  }

  /** Each of the `rows` rows holds n + 1 points of three coordinates. */
  lemma {:induction false} SphereVerticesLength(lat: BandTrig, lon: BandTrig, rows: nat, n: nat)
    ensures |SphereVertices(lat, lon, rows, n)| == 3 * (rows * (n + 1))
  {
    if rows > 0 {
      SphereVerticesLength(lat, lon, rows - 1, n);
      assert (rows - 1) * (n + 1) + (n + 1) == rows * (n + 1);
    }
  }

  /** Grid vertex (i, j) is vertex number i * (n + 1) + j. */
  function GridIndex(n: nat, i: nat, j: nat): nat
  {
    i * (n + 1) + j
  }

  /** Point j of a row sits at vertex j of that row. */
  lemma {:induction false} SphereRowAt(lat: BandTrig, lon: BandTrig, i: int, count: nat, j: nat)
    requires j < count
    ensures VertexAt(SphereRow(lat, lon, i, count), j) == SpherePoint(lat, lon, i, j)
  {
    var prefix := SphereRow(lat, lon, i, count - 1);
    if j < count - 1 {
      SphereRowAt(lat, lon, i, count - 1, j);
      assert VertexAt(prefix + SpherePoint(lat, lon, i, count - 1), j) == VertexAt(prefix, j);
    } else {
      assert |prefix| == 3 * j;
    }
  }

  /** A vertex of the left part of a concatenation. */
  lemma VertexAtLeft(s: seq<real>, t: seq<real>, v: nat)
    requires 3 * v + 3 <= |s|
    ensures VertexAt(s + t, v) == VertexAt(s, v)
  {
  }

  /** Vertex v of the right part is vertex k + v of the whole, when the left part holds k vertices. */
  lemma VertexAtRight(s: seq<real>, t: seq<real>, k: nat, v: nat)
    requires |s| == 3 * k && 3 * v + 3 <= |t|
    ensures VertexAt(s + t, k + v) == VertexAt(t, v)
  {
  }

  /** In the row after a prefix of k vertices, point j sits at vertex k + j. */
  lemma RowVertexAt(lat: BandTrig, lon: BandTrig, i: nat, n: nat, j: nat, prefix: seq<real>, k: nat)
    requires |prefix| == 3 * k && j <= n
    ensures VertexAt(prefix + SphereRow(lat, lon, i, n + 1), k + j) == SpherePoint(lat, lon, i, j)
  {
    SphereRowAt(lat, lon, i, n + 1, j);
    VertexAtRight(prefix, SphereRow(lat, lon, i, n + 1), k, j);
  }

  /**
   * The vertex that GridIndex names is the point of that latitude and
   * longitude: an index a = i * (n + 1) + j addresses point (i, j).
   */
  lemma {:induction false} SphereVertexAt(lat: BandTrig, lon: BandTrig, rows: nat, n: nat, i: nat, j: nat)
    requires i < rows && j <= n
    ensures 3 * GridIndex(n, i, j) + 3 <= |SphereVertices(lat, lon, rows, n)|
    ensures VertexAt(SphereVertices(lat, lon, rows, n), GridIndex(n, i, j)) == SpherePoint(lat, lon, i, j)
  {
    var prefix := SphereVertices(lat, lon, rows - 1, n);
    var row := SphereRow(lat, lon, rows - 1, n + 1);
    var g := GridIndex(n, i, j);
    assert SphereVertices(lat, lon, rows, n) == prefix + row;
    if i < rows - 1 {
      SphereVertexAt(lat, lon, rows - 1, n, i, j);
      VertexAtLeft(prefix, row, g);
    } else {
      SphereVerticesLength(lat, lon, i, n);
      RowVertexAt(lat, lon, i, n, j, prefix, i * (n + 1));
    }
  }

  /**
   * The two triangles of the quad between rows i and i + 1 and columns j
   * and j + 1: a = (i, j), b = (i + 1, j).
   */
  function Quad(n: nat, i: nat, j: nat): seq<int>
  {
    var a := GridIndex(n, i, j);
    var b := a + n + 1;
    [a, b, a + 1, b, b + 1, a + 1]
  }

  /** The quads of row i for the first `count` columns. */
  function QuadRow(n: nat, i: nat, count: nat): (r: seq<int>)
    ensures |r| == 6 * count
  {
    if count == 0 then [] else QuadRow(n, i, count - 1) + Quad(n, i, count - 1)
  }

  /** The quads of the first `rows` rows, n per row. */
  function SphereIndices(rows: nat, n: nat): seq<int>
  {
    if rows == 0 then [] else SphereIndices(rows - 1, n) + QuadRow(n, rows - 1, n)
  }

  /** Each of the `rows` rows holds n quads of two triangles. */
  lemma {:induction false} SphereIndicesLength(rows: nat, n: nat)
    ensures |SphereIndices(rows, n)| == 6 * rows * n
  {
    if rows > 0 {
      SphereIndicesLength(rows - 1, n);
      assert 6 * (rows - 1) * n + 6 * n == 6 * rows * n;
    }
  }

  /** A quad of row i, column j < n only touches rows i and i + 1. */
  lemma QuadRange(n: nat, i: nat, j: nat)
    requires j < n
    ensures AllIn(Quad(n, i, j), i * (n + 1), (i + 2) * (n + 1))
  {
    assert (i + 2) * (n + 1) == i * (n + 1) + 2 * n + 2;
  }

  lemma {:induction false} QuadRowRange(n: nat, i: nat, count: nat)
    requires count <= n
    ensures AllIn(QuadRow(n, i, count), i * (n + 1), (i + 2) * (n + 1))
  {
    if count > 0 {
      QuadRowRange(n, i, count - 1);
      QuadRange(n, i, count - 1);
      AllInConcat(QuadRow(n, i, count - 1), Quad(n, i, count - 1), i * (n + 1), (i + 2) * (n + 1));
    }
  }

  /** Every index of the first `rows` rows of quads names one of the (rows + 1) * (n + 1) vertices. */
  lemma {:induction false} SphereIndicesRange(rows: nat, n: nat)
    ensures AllIn(SphereIndices(rows, n), 0, (rows + 1) * (n + 1))
  {
    if rows > 0 {
      var i := rows - 1;
      SphereIndicesRange(i, n);
      QuadRowRange(n, i, n);
      assert (rows + 1) * (n + 1) == (i + 2) * (n + 1);
      assert rows * (n + 1) <= (rows + 1) * (n + 1);
      AllInWiden(SphereIndices(i, n), 0, rows * (n + 1), 0, (rows + 1) * (n + 1));
      AllInWiden(QuadRow(n, i, n), i * (n + 1), (i + 2) * (n + 1), 0, (rows + 1) * (n + 1));
      AllInConcat(SphereIndices(i, n), QuadRow(n, i, n), 0, (rows + 1) * (n + 1));
    }
  }

  /** One pass of the inner vertex loop appends point (i, j) to row i. */
  lemma PointStep(lat: BandTrig, lon: BandTrig, n: nat, i: nat, j: nat, verts: seq<real>)
    requires verts == SphereVertices(lat, lon, i, n) + SphereRow(lat, lon, i, j)
    ensures verts + SpherePoint(lat, lon, i, j) == SphereVertices(lat, lon, i, n) + SphereRow(lat, lon, i, j + 1)
  {
  }

  /** A finished row of n + 1 points completes the vertices of rows 0 to i. */
  lemma PointRowDone(lat: BandTrig, lon: BandTrig, n: nat, i: nat, verts: seq<real>)
    requires verts == SphereVertices(lat, lon, i, n) + SphereRow(lat, lon, i, n + 1)
    ensures verts == SphereVertices(lat, lon, i + 1, n)
  {
  }

  /** A finished row of n quads completes the indices of rows 0 to i. */
  lemma QuadRowDone(n: nat, i: nat, idx: seq<int>)
    requires idx == SphereIndices(i, n) + QuadRow(n, i, n)
    ensures idx == SphereIndices(i + 1, n)
  {
  }

  /** One pass of the inner index loop appends quad (i, j) to row i. */
  lemma QuadStep(n: nat, i: nat, j: nat, idx: seq<int>, a: int, b: int)
    requires idx == SphereIndices(i, n) + QuadRow(n, i, j)
    requires a == i * (n + 1) + j && b == a + n + 1
    ensures idx + [a, b, a + 1] + [b, b + 1, a + 1] == SphereIndices(i, n) + QuadRow(n, i, j + 1)
  {
    var q := Quad(n, i, j);
    assert q[0] == a && q[1] == b && q[2] == a + 1 && q[3] == b && q[4] == b + 1 && q[5] == a + 1;
    assert [a, b, a + 1] + [b, b + 1, a + 1] == q;
  }

  /** The sizes and index range of a sphere with latBands by lonBands quads. */
  lemma SphereShape(lat: BandTrig, lon: BandTrig, latBands: nat, lonBands: nat)
    ensures |SphereVertices(lat, lon, latBands + 1, lonBands)| == 3 * ((latBands + 1) * (lonBands + 1))
    ensures |SphereIndices(latBands, lonBands)| == 3 * (2 * latBands * lonBands)
    ensures AllIn(SphereIndices(latBands, lonBands), 0, (latBands + 1) * (lonBands + 1))
  {
    SphereVerticesLength(lat, lon, latBands + 1, lonBands);
    SphereIndicesLength(latBands, lonBands);
    SphereIndicesRange(latBands, lonBands);
  }

  /** The vertex loop of createSphere: every point is pushed as vertex and as normal. */
  method SphereVertexLoop(latBands: nat, lonBands: nat, lat: BandTrig, lon: BandTrig)
    returns (verts: seq<real>, norms: seq<real>)
    ensures verts == SphereVertices(lat, lon, latBands + 1, lonBands)
    ensures norms == verts
  {
    verts, norms := [], [];
    var i: nat := 0;
    while i <= latBands
      invariant i <= latBands + 1
      invariant verts == SphereVertices(lat, lon, i, lonBands)
      invariant norms == verts
    {
      var j: nat := 0;
      while j <= lonBands
        invariant j <= lonBands + 1
        invariant verts == SphereVertices(lat, lon, i, lonBands) + SphereRow(lat, lon, i, j)
        invariant norms == verts
      {
        var point := SpherePoint(lat, lon, i, j);
        PointStep(lat, lon, lonBands, i, j, verts);
        verts := verts + point;
        norms := norms + point;
        j := j + 1;
      }
      PointRowDone(lat, lon, lonBands, i, verts);
      i := i + 1;
    }
  }

  /** The index loop of createSphere: two triangles per quad, row by row. */
  method SphereIndexLoop(latBands: nat, lonBands: nat) returns (idx: seq<int>)
    ensures idx == SphereIndices(latBands, lonBands)
  {
    idx := [];
    var i: nat := 0;
    while i < latBands
      invariant i <= latBands
      invariant idx == SphereIndices(i, lonBands)
    {
      var j: nat := 0;
      while j < lonBands
        invariant j <= lonBands
        invariant idx == SphereIndices(i, lonBands) + QuadRow(lonBands, i, j)
      {
        var a := i * (lonBands + 1) + j;
        var b := a + lonBands + 1;
        QuadStep(lonBands, i, j, idx, a, b);
        idx := idx + [a, b, a + 1];
        idx := idx + [b, b + 1, a + 1];
        j := j + 1;
      }
      QuadRowDone(lonBands, i, idx);
      i := i + 1;
    }
  }

  /**
   * createSphere(latBands, lonBands): (latBands + 1) rows of (lonBands + 1)
   * points, each pushed as vertex and as normal, then two triangles for
   * each of the latBands * lonBands quads between neighbouring rows.
   */
  method CreateSphere(latBands: nat, lonBands: nat, lat: BandTrig, lon: BandTrig) returns (m: Mesh)
    ensures m.vertices == SphereVertices(lat, lon, latBands + 1, lonBands)
    ensures m.normals == m.vertices
    ensures m.indices == SphereIndices(latBands, lonBands)
    ensures |m.vertices| == |m.normals| == 3 * ((latBands + 1) * (lonBands + 1))
    ensures |m.indices| == 3 * (2 * latBands * lonBands)
    ensures AllIn(m.indices, 0, (latBands + 1) * (lonBands + 1))
  {
    var verts, norms := SphereVertexLoop(latBands, lonBands, lat, lon);
    var idx := SphereIndexLoop(latBands, lonBands);
    SphereShape(lat, lon, latBands, lonBands);
    m := Mesh(verts, norms, idx);
  }

  // ---------------------------------------------------------------------
  // Cylinder
  // ---------------------------------------------------------------------

  /** Ring i of the side: the bottom point (x, -1, z) then the top point (x, 1, z). */
  function RingVertices(ring: BandTrig, i: int): seq<real>
  {
    var x := ring.cos(i);
    var z := ring.sin(i);
    [x, -1.0, z, x, 1.0, z]
  }

  /** Both points of ring i share the outward normal (x, 0, z). */
  function RingNormals(ring: BandTrig, i: int): seq<real>
  {
    var x := ring.cos(i);
    var z := ring.sin(i);
    [x, 0.0, z, x, 0.0, z]
  }

  function CylinderVertices(ring: BandTrig, count: nat): (r: seq<real>)
    ensures |r| == 6 * count
  {
    if count == 0 then [] else CylinderVertices(ring, count - 1) + RingVertices(ring, count - 1)
  }

  function CylinderNormals(ring: BandTrig, count: nat): (r: seq<real>)
    ensures |r| == 6 * count
  {
    if count == 0 then [] else CylinderNormals(ring, count - 1) + RingNormals(ring, count - 1)
  }

  /** The side quad between rings i and i + 1: vertices a = 2i, a + 1 and b = a + 2, b + 1. */
  function SideQuad(i: int): seq<int>
  {
    var a := 2 * i;
    var b := a + 2;
    [a, a + 1, b + 1, a, b + 1, b]
  }

  function CylinderIndices(count: nat): (r: seq<int>)
    ensures |r| == 6 * count
  {
    if count == 0 then [] else CylinderIndices(count - 1) + SideQuad(count - 1)
  }

  /** The first `count` side quads only use the first 2 * (count + 1) vertices. */
  lemma {:induction false} CylinderIndicesRange(count: nat)
    ensures AllIn(CylinderIndices(count), 0, 2 * (count + 1))
  {
    if count > 0 {
      CylinderIndicesRange(count - 1);
      AllInWiden(CylinderIndices(count - 1), 0, 2 * count, 0, 2 * (count + 1));
      AllInConcat(CylinderIndices(count - 1), SideQuad(count - 1), 0, 2 * (count + 1));
    }
  }

  /**
   * Vertex 2i + w is point w of ring i: the bottom (x, -1, z) for w = 0 and
   * the top (x, 1, z) for w = 1.
   */
  lemma {:induction false} CylinderVertexAt(ring: BandTrig, count: nat, i: nat, w: nat)
    requires i < count && w < 2
    ensures VertexAt(CylinderVertices(ring, count), 2 * i + w) == VertexAt(RingVertices(ring, i), w)
  {
    var vs, rv := CylinderVertices(ring, count - 1), RingVertices(ring, count - 1);
    assert CylinderVertices(ring, count) == vs + rv;
    if i < count - 1 {
      CylinderVertexAt(ring, count - 1, i, w);
      VertexAtLeft(vs, rv, 2 * i + w);
    } else {
      VertexAtRight(vs, rv, 2 * i, w);
    }
  }

  /** A vertex with its height replaced by 0. */
  function Horizontal(p: seq<real>): seq<real>
    requires |p| == 3
  {
    [p[0], 0.0, p[2]]
  }

  /** Within the ring after a prefix of i rings, normal v is vertex v with height 0. */
  lemma RingNormalsAt(ring: BandTrig, i: nat, vs: seq<real>, ns: seq<real>, w: nat)
    requires |vs| == |ns| == 6 * i && w < 2
    ensures VertexAt(ns + RingNormals(ring, i), 2 * i + w) == Horizontal(VertexAt(vs + RingVertices(ring, i), 2 * i + w))
  {
    var rv, rn := RingVertices(ring, i), RingNormals(ring, i);
    VertexAtRight(vs, rv, 2 * i, w);
    VertexAtRight(ns, rn, 2 * i, w);
    assert VertexAt(rn, w) == Horizontal(VertexAt(rv, w));
  }

  /**
   * Each side normal is its vertex with the height replaced by 0: the
   * normals point straight out from the axis.
   */
  lemma {:induction false} CylinderNormalsHorizontal(ring: BandTrig, count: nat, v: nat)
    requires v < 2 * count
    ensures VertexAt(CylinderNormals(ring, count), v) == Horizontal(VertexAt(CylinderVertices(ring, count), v))
  {
    var vs, ns := CylinderVertices(ring, count - 1), CylinderNormals(ring, count - 1);
    var rv, rn := RingVertices(ring, count - 1), RingNormals(ring, count - 1);
    assert CylinderVertices(ring, count) == vs + rv;
    assert CylinderNormals(ring, count) == ns + rn;
    if v < 2 * (count - 1) {
      CylinderNormalsHorizontal(ring, count - 1, v);
      VertexAtLeft(vs, rv, v);
      VertexAtLeft(ns, rn, v);
    } else {
      RingNormalsAt(ring, count - 1, vs, ns, v - 2 * (count - 1));
    }
  }

  /**
   * createCylinder(segments): segments + 1 rings of two side vertices
   * each, with horizontal normals, and two triangles per side quad.
   */
  method CreateCylinder(segments: nat, ring: BandTrig) returns (m: Mesh)
    ensures m.vertices == CylinderVertices(ring, segments + 1)
    ensures m.normals == CylinderNormals(ring, segments + 1)
    ensures m.indices == CylinderIndices(segments)
    ensures |m.vertices| == |m.normals| == 6 * (segments + 1)
    ensures |m.indices| == 3 * (2 * segments)
    ensures AllIn(m.indices, 0, 2 * (segments + 1))
  {
    var verts: seq<real> := [];
    var norms: seq<real> := [];
    var idx: seq<int> := [];

    var i := 0;
    while i <= segments
      invariant 0 <= i <= segments + 1
      invariant verts == CylinderVertices(ring, i)
      invariant norms == CylinderNormals(ring, i)
    {
      var x := ring.cos(i);
      var z := ring.sin(i);
      verts := verts + [x, -1.0, z, x, 1.0, z];
      norms := norms + [x, 0.0, z, x, 0.0, z];
      i := i + 1;
    }

    i := 0;
    while i < segments
      invariant 0 <= i <= segments
      invariant idx == CylinderIndices(i)
    {
      var a := 2 * i;
      var b := a + 2;
      idx := idx + [a, a + 1, b + 1];
      idx := idx + [a, b + 1, b];
      i := i + 1;
    }

    CylinderIndicesRange(segments);
    m := Mesh(verts, norms, idx);
  }
}
