/** The mesh buffers: one coloured top face per Voronoi cell (a fan-triangulated polygon),
    the single wall quad, and the merged terrain buffer that appends faces with their
    triangle indices shifted by the vertices already present. */
module MeshStructs {
  import opened Geometry

  /** A 2D polygon point raised into the world: x to x, y to z, at height ll.y + yVal. */
  function Lift(p: Vec2, yVal: real, lowerLeftCorner: Vec3): (v: Vec3)
    ensures v.y == lowerLeftCorner.y + yVal
    ensures Vec2(v.x - lowerLeftCorner.x, v.z - lowerLeftCorner.z) == p
  {
    Vec3(lowerLeftCorner.x + p.x, lowerLeftCorner.y + yVal, lowerLeftCorner.z + p.y)
  }

  function LiftAll(points2D: seq<Vec2>, yVal: real, lowerLeftCorner: Vec3): seq<Vec3>
  {
    seq(|points2D|, k requires 0 <= k < |points2D| => Lift(points2D[k], yVal, lowerLeftCorner))
  }

  /** Raises every polygon point, in order. */
  method To3D(points2D: seq<Vec2>, yVal: real, lowerLeftCorner: Vec3) returns (retPoints: seq<Vec3>)
    ensures |retPoints| == |points2D|
    ensures forall k :: 0 <= k < |points2D| ==> retPoints[k] == Lift(points2D[k], yVal, lowerLeftCorner)
    ensures retPoints == LiftAll(points2D, yVal, lowerLeftCorner)
  {
    retPoints := [];
    for n := 0 to |points2D|
      invariant |retPoints| == n
      invariant forall k :: 0 <= k < n ==> retPoints[k] == Lift(points2D[k], yVal, lowerLeftCorner)
    {
      var point := points2D[n];
      var x := lowerLeftCorner.x + point.x;
      var y := lowerLeftCorner.y + yVal;
      var z := lowerLeftCorner.z + point.y;
      retPoints := retPoints + [Vec3(x, y, z)];
    }
  }

  /** Entry k of a triangle fan: triple t is (0, t + 1, t + 2). */
  function FanEntry(k: nat): int
  {
    if k % 3 == 0 then 0 else k / 3 + k % 3
  }

  /** The index count of a fan over `count` vertices: none below 3 vertices, else 3 * (count - 2). */
  function FanLength(count: int): nat
  {
    if count < 3 then 0 else 3 * (count - 2)
  }

  predicate IsFan(triangles: seq<int>, count: int)
  {
    |triangles| == FanLength(count) && forall k :: 0 <= k < |triangles| ==> triangles[k] == FanEntry(k)
  }

  /** The fan over `count` vertices, as one sequence: the only sequence IsFan admits. */
  function Fan(count: int): (f: seq<int>)
    ensures IsFan(f, count)
    ensures forall t :: IsFan(t, count) ==> t == f
  {
    seq(FanLength(count), k requires 0 <= k => FanEntry(k))
  }

  /** Every triangle index lies in [0, vertexCount) and the indices come in whole triangles. */
  predicate IndicesBelow(triangles: seq<int>, vertexCount: int)
  {
    |triangles| % 3 == 0 && forall k :: 0 <= k < |triangles| ==> 0 <= triangles[k] < vertexCount
  }

  /** Triple t of a fan is (0, t + 1, t + 2): every triangle shares vertex 0. */
  lemma FanTriple(triangles: seq<int>, count: int, t: nat)
    requires IsFan(triangles, count) && 3 * t + 2 < |triangles|
    ensures triangles[3 * t] == 0 && triangles[3 * t + 1] == t + 1 && triangles[3 * t + 2] == t + 2
  {
    assert (3 * t) / 3 == t && (3 * t + 1) / 3 == t && (3 * t + 2) / 3 == t;
  }

  /** A fan over `count` vertices indexes only those vertices, in whole triangles. */
  lemma FanIndicesValid(triangles: seq<int>, count: int)
    requires IsFan(triangles, count)
    ensures IndicesBelow(triangles, count)
  {
    forall k | 0 <= k < |triangles|
      ensures 0 <= triangles[k] < count
    {
      var t := k / 3;
      assert k == 3 * t + k % 3;
      assert 3 * t + 2 < |triangles| by {
        assert |triangles| == 3 * (count - 2);
      }
      FanTriple(triangles, count, t);
    }
  }

  /** The fan triangulation of a polygon with `count` vertices. */
  method TriangulatePoly(count: int) returns (ret: seq<int>)
    ensures IsFan(ret, count)
    ensures count < 3 ==> ret == []
  {
    ret := [];
    if count < 3 {
      return;
    }
    for i := 2 to count
      invariant |ret| == 3 * (i - 2)
      invariant forall k :: 0 <= k < |ret| ==> ret[k] == FanEntry(k)
    {
      ret := ret + [0, i - 1, i];
      assert FanEntry(3 * (i - 2)) == 0 && FanEntry(3 * (i - 2) + 1) == i - 1 && FanEntry(3 * (i - 2) + 2) == i by {
        assert (3 * (i - 2)) % 3 == 0 && (3 * (i - 2) + 1) / 3 == i - 2 && (3 * (i - 2) + 2) / 3 == i - 2;
      }
    }
  }

  /** `count` copies of one colour. */
  method PopulateColorArray(c: Color, count: int) returns (ret: seq<Color>)
    ensures |ret| == if count < 0 then 0 else count
    ensures forall k :: 0 <= k < |ret| ==> ret[k] == c
  {
    ret := [];
    var i := 0;
    while i < count
      invariant |ret| == if i < 0 then 0 else i
      invariant i <= 0 || i <= count
      invariant forall k :: 0 <= k < |ret| ==> ret[k] == c
    {
      ret := ret + [c];
      i := i + 1;
    }
  }

  /** One top face: the polygon raised to height yOffset, fan-triangulated, in one colour.
      The lists are set once by the constructor. */
  class TopFaceMeshInformation {
    const vertices: seq<Vec3>
    const triangles: seq<int>
    const colors: seq<Color>
    const vertexCount: int

    /** vertexCount matches both lists and the triangle indices stay below it. */
    predicate Valid()
    {
      vertexCount == |vertices| == |colors| && IndicesBelow(triangles, vertexCount)
    }

    constructor (polygon: seq<Vec2>, yOffset: real, vertexColor: Color, lowerLeftCorner: Vec3)
      ensures vertices == LiftAll(polygon, yOffset, lowerLeftCorner)
      ensures vertexCount == |polygon|
      ensures IsFan(triangles, |polygon|)
      ensures |colors| == |polygon| && forall k :: 0 <= k < |colors| ==> colors[k] == vertexColor
      ensures Valid()
    {
      var v := To3D(polygon, yOffset, lowerLeftCorner);
      var n := |polygon|;
      var t := TriangulatePoly(n);
      var c := PopulateColorArray(vertexColor, n);
      FanIndicesValid(t, n);
      vertices := v;
      vertexCount := n;
      triangles := t;
      colors := c;
    }
  }

  /** A wall corner: (p.x, y, p.y) moved by the lower-left corner. */
  function WallCorner(p: Vec2, y: real, lowerLeftCorner: Vec3): Vec3
  {
    Add3(Vec3(p.x, y, p.y), lowerLeftCorner)
  }

  /** A wall corner is where a top face at the same height puts that polygon point, so a
      wall hangs exactly from the edge of the face it borders. */
  lemma WallCornerMeetsTopFace(p: Vec2, y: real, lowerLeftCorner: Vec3)
    ensures WallCorner(p, y, lowerLeftCorner) == Lift(p, y, lowerLeftCorner)
  {
  }

  /** One vertical quad from fromPt to toPoint between heights bottomY and topY. */
  class WallMeshInformation {
    const vertices: seq<Vec3>
    const triangles: seq<int>
    const colors: seq<Color>
    const vertexCount: int

    predicate Valid()
    {
      vertexCount == |vertices| == |colors| && IndicesBelow(triangles, vertexCount)
    }

    constructor (fromPt: Vec2, toPoint: Vec2, topY: real, bottomY: real, upColor: Color, downColor: Color, lowerLeftCorner: Vec3)
      ensures vertexCount == 4
      ensures vertices == [WallCorner(toPoint, topY, lowerLeftCorner), WallCorner(fromPt, topY, lowerLeftCorner),
                           WallCorner(fromPt, bottomY, lowerLeftCorner), WallCorner(toPoint, bottomY, lowerLeftCorner)]
      ensures triangles == [0, 1, 2, 0, 2, 3]
      ensures colors == [upColor, upColor, downColor, downColor]
      ensures Valid()
    {
      var upFrom := Add3(Vec3(fromPt.x, topY, fromPt.y), lowerLeftCorner);
      var upTo := Add3(Vec3(toPoint.x, topY, toPoint.y), lowerLeftCorner);
      var downTo := Add3(Vec3(toPoint.x, bottomY, toPoint.y), lowerLeftCorner);
      var downFrom := Add3(Vec3(fromPt.x, bottomY, fromPt.y), lowerLeftCorner);
      vertices := [upTo, upFrom, downFrom, downTo];
      vertexCount := 4;
      triangles := [0, 1, 2, 0, 2, 3];
      colors := [upColor, upColor, downColor, downColor];
    }
  }

  /** The indices of an appended face, each moved past the `offset` vertices already there. */
  function Shifted(triangles: seq<int>, offset: int): seq<int>
  {
    seq(|triangles|, k requires 0 <= k < |triangles| => triangles[k] + offset)
  }

  /** Shifting a face's valid indices past the buffer's vertices keeps them valid in the buffer. */
  lemma ShiftedIndicesValid(old_: seq<int>, offset: int, face: seq<int>, faceCount: int)
    requires offset >= 0 && faceCount >= 0 && IndicesBelow(old_, offset) && IndicesBelow(face, faceCount)
    ensures IndicesBelow(old_ + Shifted(face, offset), offset + faceCount)
  {
    var s := old_ + Shifted(face, offset);
    assert |s| == |old_| + |face|;
    forall k | 0 <= k < |s|
      ensures 0 <= s[k] < offset + faceCount
    {
      if k >= |old_| {
        assert s[k] == face[k - |old_|] + offset;
      }
    }
  }

  /** The merged terrain buffer. `count` is the running vertex tally. */
  class TerrainMeshInformation {
    var vertices: seq<Vec3>
    var triangles: seq<int>
    var colors: seq<Color>
    var count: int

    /** The tally counts the vertices, colours run parallel to them, and every index
        points at a vertex of the buffer. */
    predicate Valid()
      reads this
    {
      count == |vertices| == |colors| && IndicesBelow(triangles, count)
    }

    constructor ()
      ensures vertices == [] && triangles == [] && colors == [] && count == 0
      ensures Valid()
    {
      vertices := [];
      triangles := [];
      colors := [];
      count := 0;
    }

    /** The triangle count as the source computes it: the vertex tally divided by three,
        with C#'s truncating division. */
    function TriangleCount(): (r: int)
      reads this
      ensures count >= 0 ==> 3 * r <= count < 3 * r + 3
      ensures count < 0 ==> 3 * r >= count > 3 * r - 3
    {
      if count >= 0 then count / 3 else -((-count) / 3)
    }

    /** The number of whole triangles in the buffer: a third of the index list. */
    function TriangleTotal(): (r: nat)
      reads this
      requires Valid()
      ensures 3 * r == |triangles|
    {
      |triangles| / 3
    }

    /** Appends a face: vertices and colours are copied, the face's indices are shifted by
        the tally before the append, and the tally grows by the face's vertexCount. */
    method AddTopFaceMeshInfo(meshInfo: TopFaceMeshInformation)
      modifies this
      ensures vertices == old(vertices) + meshInfo.vertices
      ensures colors == old(colors) + meshInfo.colors
      ensures triangles == old(triangles) + Shifted(meshInfo.triangles, old(count))
      ensures count == old(count) + meshInfo.vertexCount
      ensures old(Valid()) && meshInfo.Valid() ==> Valid()
    {
      var triIndices := meshInfo.triangles;
      vertices := vertices + meshInfo.vertices;
      colors := colors + meshInfo.colors;
      ghost var before := triangles;
      for i := 0 to |meshInfo.triangles|
        invariant triangles == before + Shifted(triIndices[..i], count)
        invariant vertices == old(vertices) + meshInfo.vertices && colors == old(colors) + meshInfo.colors
        invariant count == old(count)
      {
        triangles := triangles + [triIndices[i] + count];
        assert Shifted(triIndices[..i + 1], count) == Shifted(triIndices[..i], count) + [triIndices[i] + count];
      }
      assert triIndices[..|triIndices|] == triIndices;
      assert triangles == before + Shifted(triIndices, count);
      if old(Valid()) && meshInfo.Valid() {
        ShiftedIndicesValid(before, count, triIndices, meshInfo.vertexCount);
      }
      count := count + meshInfo.vertexCount;
    }
  }

  /** A buffer holding one quad face: the source's triangle count reports one triangle,
      while the fan holds two. */
  method QuadFaceTriangleCounts() returns (asWritten: int, corrected: int)
    ensures asWritten == 1 && corrected == 2
  {
    var quad := [Vec2(0.0, 0.0), Vec2(1.0, 0.0), Vec2(1.0, 1.0), Vec2(0.0, 1.0)];
    var face := new TopFaceMeshInformation(quad, 0.0, Color(1.0, 1.0, 1.0, 1.0), Zero3);
    var terrain := new TerrainMeshInformation();
    terrain.AddTopFaceMeshInfo(face);
    asWritten := terrain.TriangleCount();
    corrected := terrain.TriangleTotal();
  }
}
