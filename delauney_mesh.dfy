/** The Delaunay mesh generator that the tile generator hands its grid to: it only stores
    the generation data (the site positions and the extents) and marks itself initialised. */
module DelauneyMesh {
  import opened Geometry
  import opened Terrain
  import opened TileGrid

  class GenerationData {
    const origin: Vec3
    const rows: nat
    const cols: nat
    const tileSize: Vec2
    const lenX: real
    const lenY: real
    const points2D: array2<Vec2>

    /** Stores the parameters, the extents dims * tile (no margin) and every cell's site. */
    constructor (origin: Vec3, rows: nat, cols: nat, tileSize: Vec2, terrainTypes: array2<TerrainType>, posnOffsets: array2<Vec2>)
      requires posnOffsets.Length0 >= rows && posnOffsets.Length1 >= cols
      ensures this.origin == origin && this.rows == rows && this.cols == cols && this.tileSize == tileSize
      ensures lenX == rows as real * tileSize.x && lenY == cols as real * tileSize.y
      ensures fresh(points2D) && points2D.Length0 == rows && points2D.Length1 == cols
      ensures forall i, j :: 0 <= i < rows && 0 <= j < cols ==>
        points2D[i, j] == SitePosition(tileSize, posnOffsets[i, j], i, j)
    {
      var pts := new Vec2[rows, cols];
      var startingPt := Vec2(tileSize.x / 2.0, tileSize.y / 2.0);
      for i := 0 to rows
        invariant forall a, b :: 0 <= a < i && 0 <= b < cols ==> pts[a, b] == SitePosition(tileSize, posnOffsets[a, b], a, b)
      {
        for j := 0 to cols
          invariant forall a, b :: 0 <= a < i && 0 <= b < cols ==> pts[a, b] == SitePosition(tileSize, posnOffsets[a, b], a, b)
          invariant forall b :: 0 <= b < j ==> pts[i, b] == SitePosition(tileSize, posnOffsets[i, b], i, b)
        {
          var thisOffset := Vec2(i as real * tileSize.x, j as real * tileSize.y);
          pts[i, j] := Add2(Add2(startingPt, thisOffset), posnOffsets[i, j]);
        }
      }
      this.origin := origin;
      this.rows := rows;
      this.cols := cols;
      this.tileSize := tileSize;
      lenX := rows as real * tileSize.x;
      lenY := cols as real * tileSize.y;
      points2D := pts;
    }
  }

  class DelauneyMeshGeneration {
    var wasInit: bool
    var genData: GenerationData?

    constructor ()
      ensures !wasInit && genData == null
    {
      wasInit := false;
      genData := null;
    }

    /** Stores the data, runs the (empty) mesh generation and leaves the generator initialised. */
    method Init(data: GenerationData)
      modifies this
      ensures genData == data && wasInit
    {
      wasInit := false;
      genData := data;
      GenerateMesh();
      wasInit := true;
    }

    /** Mesh generation was never written for this generator: it does nothing. */
    method GenerateMesh()
    {
    }
  }
}
