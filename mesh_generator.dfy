/**
 * The mesh generator (meshGenerator.cpp): vertex, normal and index buffers
 * for the unit cylinder drawn for bones, the unit sphere drawn for joints,
 * and the line meshes drawn for rigid bodies. The float trigonometry is
 * abstract; the index arithmetic is exact.
 */
module MeshGenerator {
  import opened Geometry

  /** The trigonometry the generators use, as functions of step i out of n:
    * cosine and sine of a full turn's i/n-th (2*pi*i/n) and of a half
    * turn's i/n-th (pi*i/n). */
  datatype Trig = Trig(
    cosTurn: (int, int) -> real, sinTurn: (int, int) -> real,
    cosHalf: (int, int) -> real, sinHalf: (int, int) -> real)

  /** The buffers setupMesh uploads: positions, normals and the index list. */
  datatype MeshData = MeshData(positions: seq<Vec3>, normals: seq<Vec3>, indices: seq<int>)

  /** The normal every wireframe point gets. */
  const Up: Vec3 := Vec3(0.0, 1.0, 0.0)

  function Max0(n: int): nat {
    if n > 0 then n else 0
  }

  predicate IndicesBelow(indices: seq<int>, bound: int) {
    forall k :: 0 <= k < |indices| ==> 0 <= indices[k] < bound
  }

  // ---------------------------------------------------------------- cylinder

  /** The bottom and top vertex of side column i. */
  function CylinderColumn(trig: Trig, segments: int, i: int): seq<Vec3> {
    var x := trig.cosTurn(i, segments);
    var z := trig.sinTurn(i, segments);
    [Vec3(x, -0.5, z), Vec3(x, 0.5, z)]
  }

  /** The outward normal of side column i, twice. */
  function CylinderColumnNormals(trig: Trig, segments: int, i: int): seq<Vec3> {
    var x := trig.cosTurn(i, segments);
    var z := trig.sinTurn(i, segments);
    [Vec3(x, 0.0, z), Vec3(x, 0.0, z)]
  }

  /** The positions of the first n columns. */
  function CylinderPositions(trig: Trig, segments: int, n: int): seq<Vec3>
    decreases Max0(n)
  {
    if n <= 0 then [] else CylinderPositions(trig, segments, n - 1) + CylinderColumn(trig, segments, n - 1)
  }

  function CylinderNormals(trig: Trig, segments: int, n: int): seq<Vec3>
    decreases Max0(n)
  {
    if n <= 0 then [] else CylinderNormals(trig, segments, n - 1) + CylinderColumnNormals(trig, segments, n - 1)
  }

  /** The two side triangles of segment i, joining column i to the next one,
    * the last segment wrapping round to column 0. */
  function CylinderQuad(segments: int, i: int): seq<int>
    requires segments > 0
  {
    var i0 := i * 2;
    var i1 := i * 2 + 1;
    var next := ((i + 1) % segments) * 2;
    [i0, next, i1, i1, next, next + 1]
  }

  function CylinderIndices(segments: int, n: int): seq<int>
    decreases Max0(n)
  {
    if n <= 0 || segments <= 0 then [] else CylinderIndices(segments, n - 1) + CylinderQuad(segments, n - 1)
  }

  /** Column i sits at positions 2i (bottom, y = -0.5) and 2i+1 (top,
    * y = +0.5), and each normal is its position flattened onto y = 0. */
  lemma {:induction false} CylinderPositionsShape(trig: Trig, segments: int, n: int)
    ensures |CylinderPositions(trig, segments, n)| == 2 * Max0(n)
    ensures |CylinderNormals(trig, segments, n)| == 2 * Max0(n)
    ensures forall k :: 0 <= k < 2 * Max0(n) ==>
      var p := CylinderPositions(trig, segments, n)[k];
      && p.x == trig.cosTurn(k / 2, segments) && p.z == trig.sinTurn(k / 2, segments)
      && p.y == (if k % 2 == 0 then -0.5 else 0.5)
      && CylinderNormals(trig, segments, n)[k] == Vec3(p.x, 0.0, p.z)
    decreases Max0(n)
  {
    if n > 0 {
      CylinderPositionsShape(trig, segments, n - 1);
      var ps := CylinderPositions(trig, segments, n);
      var ns := CylinderNormals(trig, segments, n);
      forall k | 2 * (n - 1) <= k < 2 * n
        ensures ps[k].x == trig.cosTurn(k / 2, segments) && ps[k].z == trig.sinTurn(k / 2, segments)
        ensures ps[k].y == (if k % 2 == 0 then -0.5 else 0.5)
        ensures ns[k] == Vec3(ps[k].x, 0.0, ps[k].z)
      {
        assert k / 2 == n - 1;
      }
    }
  }

  /** Segment i's triangles use columns i and i+1 (mod segments) only, so
    * every index is below 2 * segments. */
  lemma CylinderQuadInRange(segments: int, i: int)
    requires 0 <= i < segments
    ensures IndicesBelow(CylinderQuad(segments, i), 2 * segments)
  {
    var next := (i + 1) % segments;
    assert 0 <= next < segments;
  }

  /** Six indices per segment, all naming one of the 2 * segments vertices. */
  lemma {:induction false} CylinderIndicesInRange(segments: int, n: int)
    requires n <= segments
    ensures |CylinderIndices(segments, n)| == 6 * Max0(n)
    ensures IndicesBelow(CylinderIndices(segments, n), 2 * segments)
    decreases Max0(n)
  {
    if n > 0 && segments > 0 {
      CylinderIndicesInRange(segments, n - 1);
      CylinderQuadInRange(segments, n - 1);
    }
  }

  /** The whole cylinder: 2 * segments positions and normals and
    * 6 * segments indices into them. */
  lemma CylinderMeshShape(trig: Trig, segments: int)
    ensures |CylinderPositions(trig, segments, segments)| == 2 * Max0(segments)
    ensures |CylinderNormals(trig, segments, segments)| == 2 * Max0(segments)
    ensures |CylinderIndices(segments, segments)| == 6 * Max0(segments)
    ensures IndicesBelow(CylinderIndices(segments, segments), |CylinderPositions(trig, segments, segments)|)
  {
    CylinderPositionsShape(trig, segments, segments);
    CylinderIndicesInRange(segments, segments);
  }

  /** generateCylinder: the output is built afresh, side vertices first and
    * then the side triangles. */
  method GenerateCylinder(trig: Trig, segments: int) returns (mesh: MeshData)
    ensures mesh.positions == CylinderPositions(trig, segments, segments)
    ensures mesh.normals == CylinderNormals(trig, segments, segments)
    ensures mesh.indices == CylinderIndices(segments, segments)
  {
    var pos: seq<Vec3> := [];
    var norm: seq<Vec3> := [];
    var idx: seq<int> := [];
    var i := 0;
    while i < segments
      invariant 0 <= i <= Max0(segments)
      invariant pos == CylinderPositions(trig, segments, i)
      invariant norm == CylinderNormals(trig, segments, i)
    {
      var x := trig.cosTurn(i, segments);
      var z := trig.sinTurn(i, segments);
      pos := pos + [Vec3(x, -0.5, z), Vec3(x, 0.5, z)];
      norm := norm + [Vec3(x, 0.0, z), Vec3(x, 0.0, z)];
      i := i + 1;
    }
    assert i == Max0(segments);
    i := 0;
    while i < segments
      invariant 0 <= i <= Max0(segments)
      invariant idx == CylinderIndices(segments, i)
    {
      var i0 := i * 2;
      var i1 := i * 2 + 1;
      var next := ((i + 1) % segments) * 2;
      var next1 := next + 1;
      idx := idx + [i0, next, i1, i1, next, next1];
      i := i + 1;
    }
    assert i == Max0(segments);
    mesh := MeshData(pos, norm, idx);
  }

  // ------------------------------------------------------------------ sphere

  /** Vertex i of ring s: height cos(pi*s/stacks), radius sin(pi*s/stacks). */
  function RingVertex(trig: Trig, stacks: int, slices: int, s: int, i: int): Vec3 {
    var y := trig.cosHalf(s, stacks);
    var r := trig.sinHalf(s, stacks);
    Vec3(r * trig.cosTurn(i, slices), y, r * trig.sinTurn(i, slices))
  }

  /** The first count vertices of ring s (latitude pi*s/stacks). */
  function SphereRing(trig: Trig, stacks: int, slices: int, s: int, count: int): seq<Vec3>
    decreases Max0(count)
  {
    if count <= 0 then []
    else SphereRing(trig, stacks, slices, s, count - 1) + [RingVertex(trig, stacks, slices, s, count - 1)]
  }

  /** The first rows rings, each of slices + 1 vertices. */
  function SpherePositions(trig: Trig, stacks: int, slices: int, rows: int): seq<Vec3>
    decreases Max0(rows)
  {
    if rows <= 0 then []
    else SpherePositions(trig, stacks, slices, rows - 1) + SphereRing(trig, stacks, slices, rows - 1, slices + 1)
  }

  /** The two triangles of the quad between ring s and ring s+1 at slice i. */
  function SphereQuad(slices: int, s: int, i: int): seq<int> {
    var a := s * (slices + 1) + i;
    var b := (s + 1) * (slices + 1) + i;
    [a, b, a + 1, a + 1, b, b + 1]
  }

  function SphereBand(slices: int, s: int, count: int): seq<int>
    decreases Max0(count)
  {
    if count <= 0 then [] else SphereBand(slices, s, count - 1) + SphereQuad(slices, s, count - 1)
  }

  function SphereIndices(slices: int, rows: int): seq<int>
    decreases Max0(rows)
  {
    if rows <= 0 then [] else SphereIndices(slices, rows - 1) + SphereBand(slices, rows - 1, slices)
  }

  lemma {:induction false} SphereRingLength(trig: Trig, stacks: int, slices: int, s: int, count: int)
    ensures |SphereRing(trig, stacks, slices, s, count)| == Max0(count)
    decreases Max0(count)
  {
    if count > 0 {
      SphereRingLength(trig, stacks, slices, s, count - 1);
    }
  }

  /** (stacks + 1) rings of (slices + 1) vertices each. */
  lemma {:induction false} SpherePositionsLength(trig: Trig, stacks: int, slices: int, rows: int)
    ensures |SpherePositions(trig, stacks, slices, rows)| == Max0(rows) * Max0(slices + 1)
    decreases Max0(rows)
  {
    if rows > 0 {
      SpherePositionsLength(trig, stacks, slices, rows - 1);
      SphereRingLength(trig, stacks, slices, rows - 1, slices + 1);
      MulAdd(rows - 1, 1, Max0(slices + 1));
      assert Max0(rows) == rows - 1 + 1 && Max0(rows - 1) == rows - 1;
    }
  }

  /** Each quad of band s (s < stacks, i < slices) names vertices of rings s
    * and s+1 only. */
  lemma SphereQuadInRange(stacks: int, slices: int, s: int, i: int)
    requires 0 <= s < stacks && 0 <= i < slices
    ensures IndicesBelow(SphereQuad(slices, s, i), (stacks + 1) * (slices + 1))
  {
    RingOffsets(stacks, slices, s);
    var quad := SphereQuad(slices, s, i);
    assert quad == [s * (slices + 1) + i, (s + 1) * (slices + 1) + i, s * (slices + 1) + i + 1,
                    s * (slices + 1) + i + 1, (s + 1) * (slices + 1) + i, (s + 1) * (slices + 1) + i + 1];
  }

  /** Ring s starts at s * (slices + 1), ring s + 1 one ring later, and the
    * ring after that still fits in the vertex count. */
  lemma RingOffsets(stacks: int, slices: int, s: int)
    requires 0 <= s < stacks && 0 <= slices
    ensures 0 <= s * (slices + 1)
    ensures (s + 1) * (slices + 1) == s * (slices + 1) + slices + 1
    ensures (s + 1) * (slices + 1) + slices + 1 <= (stacks + 1) * (slices + 1)
  {
    var w := slices + 1;
    MulNonNegative(s, w);
    MulAdd(s, 1, w);
    MulAdd(s + 2, stacks - s - 1, w);
    MulAdd(s + 1, 1, w);
    MulNonNegative(stacks - s - 1, w);
  }

  lemma MulAdd(a: int, b: int, w: int)
    ensures (a + b) * w == a * w + b * w
  {
  }

  lemma MulNonNegative(a: int, w: int)
    requires 0 <= a && 0 <= w
    ensures 0 <= a * w
  {
  }

  lemma {:induction false} SphereBandInRange(stacks: int, slices: int, s: int, count: int)
    requires 0 <= s < stacks && count <= slices
    ensures |SphereBand(slices, s, count)| == 6 * Max0(count)
    ensures IndicesBelow(SphereBand(slices, s, count), (stacks + 1) * (slices + 1))
    decreases Max0(count)
  {
    if count > 0 {
      SphereBandInRange(stacks, slices, s, count - 1);
      SphereQuadInRange(stacks, slices, s, count - 1);
    }
  }

  /** Six indices per quad, every one naming a generated vertex. */
  lemma {:induction false} SphereIndicesInRange(stacks: int, slices: int, rows: int)
    requires rows <= stacks
    ensures |SphereIndices(slices, rows)| == 6 * Max0(rows) * Max0(slices)
    ensures IndicesBelow(SphereIndices(slices, rows), (stacks + 1) * (slices + 1))
    decreases Max0(rows)
  {
    if rows > 0 {
      SphereIndicesInRange(stacks, slices, rows - 1);
      SphereBandInRange(stacks, slices, rows - 1, slices);
      MulAdd(6 * (rows - 1), 6, Max0(slices));
      assert 6 * Max0(rows) == 6 * (rows - 1) + 6;
    }
  }

  /** The whole sphere: (stacks+1)(slices+1) positions, 6 * stacks * slices
    * indices, all below the number of positions. */
  lemma SphereMeshShape(trig: Trig, stacks: int, slices: int)
    requires stacks >= 0 && slices >= 0
    ensures |SpherePositions(trig, stacks, slices, stacks + 1)| == (stacks + 1) * (slices + 1)
    ensures |SphereIndices(slices, stacks)| == 6 * stacks * slices
    ensures IndicesBelow(SphereIndices(slices, stacks), |SpherePositions(trig, stacks, slices, stacks + 1)|)
  {
    SpherePositionsLength(trig, stacks, slices, stacks + 1);
    SphereIndicesInRange(stacks, slices, stacks);
  }

  /** generateSphere: rings from the top pole (s = 0) down, normals equal to
    * positions on the unit sphere, then two triangles per quad. */
  method GenerateSphere(trig: Trig, stacks: int, slices: int) returns (mesh: MeshData)
    ensures mesh.positions == SpherePositions(trig, stacks, slices, stacks + 1)
    ensures mesh.normals == mesh.positions
    ensures mesh.indices == SphereIndices(slices, stacks)
  {
    var pos: seq<Vec3> := [];
    var s := 0;
    while s <= stacks
      invariant 0 <= s <= Max0(stacks + 1)
      invariant pos == SpherePositions(trig, stacks, slices, s)
    {
      var y := trig.cosHalf(s, stacks);
      var r := trig.sinHalf(s, stacks);
      var i := 0;
      while i <= slices
        invariant 0 <= i <= Max0(slices + 1)
        invariant pos == SpherePositions(trig, stacks, slices, s) + SphereRing(trig, stacks, slices, s, i)
      {
        var v := Vec3(r * trig.cosTurn(i, slices), y, r * trig.sinTurn(i, slices));
        assert v == RingVertex(trig, stacks, slices, s, i);
        pos := pos + [v];
        i := i + 1;
      }
      assert i == Max0(slices + 1);
      s := s + 1;
    }
    assert s == Max0(stacks + 1);
    var idx: seq<int> := [];
    s := 0;
    while s < stacks
      invariant 0 <= s <= Max0(stacks)
      invariant idx == SphereIndices(slices, s)
    {
      var i := 0;
      while i < slices
        invariant 0 <= i <= Max0(slices)
        invariant idx == SphereIndices(slices, s) + SphereBand(slices, s, i)
      {
        var a := s * (slices + 1) + i;
        var b := (s + 1) * (slices + 1) + i;
        idx := idx + [a, b, a + 1, a + 1, b, b + 1];
        i := i + 1;
      }
      assert i == Max0(slices);
      s := s + 1;
    }
    assert s == Max0(stacks);
    mesh := MeshData(pos, pos, idx);
  }

  // --------------------------------------------------------------- wireframe

  /** wireframe: the given points and line indices, with one (0,1,0) normal
    * per point. */
  function Wireframe(points: seq<Vec3>, lineIndices: seq<int>): (mesh: MeshData)
    ensures mesh.positions == points && mesh.indices == lineIndices
    ensures |mesh.normals| == |points|
    ensures forall k :: 0 <= k < |mesh.normals| ==> mesh.normals[k] == Up
  {
    MeshData(points, seq(|points|, _ => Up), lineIndices)
  }
}
