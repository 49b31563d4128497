/** The older tile generator: the same grid layout, kernel, shore pass and offsets as the
    Voronoi generator, but a three-band classifier, a kernel scaled up to 1.75, and the
    finished grid handed to the Delaunay generator instead of a mesh of its own. */
module TileGeneration {
  import opened Geometry
  import opened Terrain
  import opened TileGrid
  import opened DelauneyMesh
  import VoronoiMesh

  /** The kernel's upper scale in this generator. */
  const MaxScale: real := 1.75

  // ---------------------------------------------------------------------------
  // Classification

  /** The three-band classifier: above GROUND's value (7) is MOUNTAIN, above WATER's (0) is
      GROUND, anything else WATER. */
  function ClassifyTile(perlin: real): (t: TerrainType)
    ensures t == Water || t == Ground || t == Mountain
    ensures t == Mountain <==> perlin > Value(Ground) as real
    ensures t == Water <==> perlin <= Value(Water) as real
  {
    if perlin > Value(Ground) as real then Mountain
    else if perlin > Value(Water) as real then Ground
    else Water
  }

  /** A higher intensity never gives a lower category. */
  lemma ClassifyTileMonotone(p: real, q: real)
    requires p <= q
    ensures Rank(ClassifyTile(p)) <= Rank(ClassifyTile(q))
  {
    if ClassifyTile(q) == Water {
      assert q <= 0.0;
    } else if ClassifyTile(q) == Ground {
      assert p <= 7.0;
    }
  }

  /** The three bands are the five-band classifier's bands coarsened: everything the
      Voronoi generator calls land here is a mountain, and its water splits into water
      (intensity at most 0) and ground. */
  lemma ThreeBandsCoarsenFiveBands(p: real)
    ensures ClassifyTile(p) == Mountain <==> VoronoiMesh.Classify(p) != Water
    ensures ClassifyTile(p) == Water ==> VoronoiMesh.Classify(p) == Water
    ensures ClassifyTile(p) == Ground <==> VoronoiMesh.Classify(p) == Water && p > 0.0
  {
    var c := VoronoiMesh.Classify(p);
    if p > 7.0 {
      assert c == Mountain || c == LowMountain || c == Ground;
    } else {
      assert c == Water;
    }
  }

  /** The grid this generator ends with: the first pass, then the shore pass. */
  function FinalTileTypes(noise: (real, real) -> real, kernel: Grid<real>, rows: nat, cols: nat, xOff: nat, yOff: nat): (g: Grid<TerrainType>)
    requires IsGrid(kernel, rows, cols)
    ensures IsGrid(g, rows, cols)
  {
    ShorePass(FirstPass(ClassifyTile, noise, kernel, rows, cols, xOff, yOff), rows, cols)
  }

  /** The finished grid has a water border, never holds LOWMOUNTAIN, and holds SHORE only on
      grids larger than 8 by 8. */
  lemma FinalTileTypesShape(noise: (real, real) -> real, kernel: Grid<real>, rows: nat, cols: nat, xOff: nat, yOff: nat)
    requires IsGrid(kernel, rows, cols)
    ensures BorderIsWater(FinalTileTypes(noise, kernel, rows, cols, xOff, yOff), rows, cols)
    ensures forall i, j :: 0 <= i < rows && 0 <= j < cols ==> FinalTileTypes(noise, kernel, rows, cols, xOff, yOff)[i][j] != LowMountain
    ensures !(rows > 8 && cols > 8) ==>
      forall i, j :: 0 <= i < rows && 0 <= j < cols ==> FinalTileTypes(noise, kernel, rows, cols, xOff, yOff)[i][j] != Shore
  {
    var first := FirstPass(ClassifyTile, noise, kernel, rows, cols, xOff, yOff);
    FirstPassShape(ClassifyTile, noise, kernel, rows, cols, xOff, yOff, Shore);
    FirstPassShape(ClassifyTile, noise, kernel, rows, cols, xOff, yOff, LowMountain);
    ShorePassKeepsBorder(first, rows, cols);
    forall i, j | 0 <= i < rows && 0 <= j < cols
      ensures FinalTileTypes(noise, kernel, rows, cols, xOff, yOff)[i][j] != LowMountain
    {
      ShorePassAt(first, rows, cols, i, j);
    }
  }

  // ---------------------------------------------------------------------------
  // The generator

  class TileGeneration {
    // configuration
    const origin: Vec3
    const rows: nat
    const columns: nat
    const tileSize: Vec2
    const offsetEvenColumns: bool
    const randomAmt: real
    const meshGenerator: DelauneyMeshGeneration

    // state of the last generation
    var kernel: array2<real>
    var generatedTileTypes: array2<TerrainType>
    var tileLocs: array2<Vec3>

    constructor (origin: Vec3, rows: nat, columns: nat, tileSize: Vec2, offsetEvenColumns: bool, randomAmt: real,
                 meshGenerator: DelauneyMeshGeneration)
      ensures this.origin == origin && this.rows == rows && this.columns == columns && this.tileSize == tileSize
      ensures this.offsetEvenColumns == offsetEvenColumns && this.randomAmt == randomAmt
      ensures this.meshGenerator == meshGenerator
    {
      this.origin := origin;
      this.rows := rows;
      this.columns := columns;
      this.tileSize := tileSize;
      this.offsetEvenColumns := offsetEvenColumns;
      this.randomAmt := randomAmt;
      this.meshGenerator := meshGenerator;
      kernel := new real[0, 0];
      generatedTileTypes := new TerrainType[0, 0];
      tileLocs := new Vec3[0, 0];
    }

    /** Fills the kernel with upper scale 1.75. */
    method GenerateKernel(curve: real -> real)
      modifies this`kernel
      ensures fresh(kernel) && kernel.Length0 == rows && kernel.Length1 == columns
      ensures Holds(kernel, KernelGrid(rows, columns, MaxScale, curve))
    {
      kernel := TileGrid.GenerateKernel(rows, columns, MaxScale, curve);
    }

    /** Regenerates the kernel before a new generation. */
    method ClearPrevGeneration(curve: real -> real)
      modifies this`kernel
      ensures fresh(kernel) && kernel.Length0 == rows && kernel.Length1 == columns
      ensures Holds(kernel, KernelGrid(rows, columns, MaxScale, curve))
    {
      GenerateKernel(curve);
    }

    /** Classifies the grid (water border, three bands), runs the shore pass on grids larger
        than 8 by 8, computes the offsets and initialises the Delaunay generator with them. */
    method InstantiateTiles(noise: (real, real) -> real, xOff: nat, yOff: nat, jitter: (int, int) -> Vec2, ghost kgrid: Grid<real>)
      requires kernel.Length0 == rows && kernel.Length1 == columns && Holds(kernel, kgrid)
      modifies this`generatedTileTypes, this`tileLocs, meshGenerator
      ensures fresh(generatedTileTypes) && fresh(tileLocs)
      ensures generatedTileTypes.Length0 == rows && generatedTileTypes.Length1 == columns
      ensures tileLocs.Length0 == rows && tileLocs.Length1 == columns
      ensures Holds(generatedTileTypes, FinalTileTypes(noise, kgrid, rows, columns, xOff, yOff))
      ensures Holds(tileLocs, TileLocGrid(rows, columns, tileSize, offsetEvenColumns))
      ensures meshGenerator.wasInit && meshGenerator.genData != null
      ensures fresh(meshGenerator.genData)
      ensures meshGenerator.genData.origin == origin && meshGenerator.genData.tileSize == tileSize
      ensures meshGenerator.genData.rows == rows && meshGenerator.genData.cols == columns
      ensures meshGenerator.genData.lenX == rows as real * tileSize.x && meshGenerator.genData.lenY == columns as real * tileSize.y
      ensures fresh(meshGenerator.genData.points2D)
      ensures meshGenerator.genData.points2D.Length0 == rows && meshGenerator.genData.points2D.Length1 == columns
      ensures forall i, j :: 0 <= i < rows && 0 <= j < columns ==>
        meshGenerator.genData.points2D[i, j] == SitePosition(tileSize, Offset(offsetEvenColumns, randomAmt, jitter, i, j), i, j)
    {
      var locs, types, posnOffsets2D := LayOutTiles(rows, columns, tileSize, offsetEvenColumns, kernel, kgrid,
                                                    noise, xOff, yOff, ClassifyTile, randomAmt, jitter);
      tileLocs := locs;
      generatedTileTypes := types;
      var data := new GenerationData(origin, rows, columns, tileSize, types, posnOffsets2D);
      meshGenerator.Init(data);
    }

    /** One generation: clear (regenerating the kernel), then the tiles. */
    method StartGeneration(curve: real -> real, noise: (real, real) -> real, xOff: nat, yOff: nat, jitter: (int, int) -> Vec2)
      modifies this, meshGenerator
      ensures Holds(kernel, KernelGrid(rows, columns, MaxScale, curve))
      ensures Holds(generatedTileTypes, FinalTileTypes(noise, KernelGrid(rows, columns, MaxScale, curve), rows, columns, xOff, yOff))
      ensures Holds(tileLocs, TileLocGrid(rows, columns, tileSize, offsetEvenColumns))
      ensures meshGenerator.wasInit && meshGenerator.genData != null
      ensures fresh(meshGenerator.genData)
      ensures meshGenerator.genData.origin == origin && meshGenerator.genData.tileSize == tileSize
      ensures meshGenerator.genData.rows == rows && meshGenerator.genData.cols == columns
      ensures meshGenerator.genData.lenX == rows as real * tileSize.x && meshGenerator.genData.lenY == columns as real * tileSize.y
      ensures fresh(meshGenerator.genData.points2D)
      ensures meshGenerator.genData.points2D.Length0 == rows && meshGenerator.genData.points2D.Length1 == columns
      ensures forall i, j :: 0 <= i < rows && 0 <= j < columns ==>
        meshGenerator.genData.points2D[i, j] == SitePosition(tileSize, Offset(offsetEvenColumns, randomAmt, jitter, i, j), i, j)
    {
      ClearPrevGeneration(curve);
      InstantiateTiles(noise, xOff, yOff, jitter, KernelGrid(rows, columns, MaxScale, curve));
    }
  }
}
