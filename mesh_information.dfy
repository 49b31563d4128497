/** The older, colourless top-face builder. Its point lifting and fan triangulation are the
    same as the coloured face's and are shared with it. */
module MeshInformation {
  import opened Geometry
  import opened MeshStructs

  class MeshInformation {
    const vertices: seq<Vec3>
    const triangles: seq<int>

    /** The triangles are the fan over the vertex list. */
    predicate Valid()
    {
      IsFan(triangles, |vertices|)
    }

    /** The vertex count is read off the vertex list; the triangles are the fan over that many
        vertices, so every index addresses one of them. */
    function VertexCount(): (r: nat)
      requires Valid()
      ensures IsFan(triangles, r)
      ensures IndicesBelow(triangles, r)
    {
      FanIndicesValid(triangles, |vertices|);
      |vertices|
    }

    constructor (polygon: seq<Vec2>, yOffset: real, lowerLeftCorner: Vec3)
      ensures vertices == LiftAll(polygon, yOffset, lowerLeftCorner)
      ensures Valid()
      ensures VertexCount() == |polygon|
      ensures IsFan(triangles, |polygon|)
      ensures IndicesBelow(triangles, VertexCount())
    {
      var v := To3D(polygon, yOffset, lowerLeftCorner);
      var t := TriangulatePoly(|polygon|);
      FanIndicesValid(t, |polygon|);
      vertices := v;
      triangles := t;
    }
  }
}
