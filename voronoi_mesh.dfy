/** The Voronoi mesh generator: it classifies the grid into five bands, lays the sites out
    row by row, asks the Voronoi diagram for each site's cell, and merges one coloured top
    face per site into a single terrain buffer. The Voronoi diagram itself (its Region
    query), the noise, the clock, the random draws, the animation curve and atan2 are
    inputs. */
module VoronoiMesh {
  import opened Geometry
  import opened Terrain
  import opened TileGrid
  import opened MeshStructs

  /** The kernel's upper scale in this generator. */
  const MaxScale: real := 1.1

  // ---------------------------------------------------------------------------
  // Classification

  /** The five-band classifier: the highest of WATER, GROUND, LOWMOUNTAIN and MOUNTAIN whose
      integer value lies strictly below the intensity, and WATER when none does (every
      comparison is a strict `>`). It never yields SHORE. */
  function Classify(perlin: real): (t: TerrainType)
    ensures t != Shore
    ensures t == Water || (Value(t) as real) < perlin
    ensures forall u :: u != Shore && (Value(u) as real) < perlin ==> Value(u) <= Value(t)
  {
    if perlin > Value(Mountain) as real then Mountain
    else if perlin > Value(LowMountain) as real then LowMountain
    else if perlin > Value(Ground) as real then Ground
    else Water
  }

  /** The grid the generator ends with: the first pass, then the shore pass. */
  function FinalTypes(noise: (real, real) -> real, kernel: Grid<real>, rows: nat, cols: nat, xOff: nat, yOff: nat): (g: Grid<TerrainType>)
    requires IsGrid(kernel, rows, cols)
    ensures IsGrid(g, rows, cols)
  {
    ShorePass(FirstPass(Classify, noise, kernel, rows, cols, xOff, yOff), rows, cols)
  }

  /** The finished grid has a water border, and shore appears only where the shore pass put it:
      never on a grid of 8 rows or columns or fewer. */
  lemma FinalTypesShape(noise: (real, real) -> real, kernel: Grid<real>, rows: nat, cols: nat, xOff: nat, yOff: nat)
    requires IsGrid(kernel, rows, cols)
    ensures BorderIsWater(FinalTypes(noise, kernel, rows, cols, xOff, yOff), rows, cols)
    ensures !(rows > 8 && cols > 8) ==>
      forall i, j :: 0 <= i < rows && 0 <= j < cols ==> FinalTypes(noise, kernel, rows, cols, xOff, yOff)[i][j] != Shore
  {
    var first := FirstPass(Classify, noise, kernel, rows, cols, xOff, yOff);
    FirstPassShape(Classify, noise, kernel, rows, cols, xOff, yOff, Shore);
    ShorePassKeepsBorder(first, rows, cols);
  }

  // ---------------------------------------------------------------------------
  // Helpers

  /** A point of the diagram's rectangle placed in the world's XZ plane. */
  function ProjectToXZPlane(rectPosn: Vec2, lowerLeftPoint: Vec3): (v: Vec3)
    ensures v.y == lowerLeftPoint.y
    ensures Vec2(v.x - lowerLeftPoint.x, v.z - lowerLeftPoint.z) == rectPosn
  {
    Vec3(lowerLeftPoint.x + rectPosn.x, lowerLeftPoint.y, lowerLeftPoint.z + rectPosn.y)
  }

  /** A top-face vertex is the projected point raised by the face's height. */
  lemma LiftIsRaisedProjection(p: Vec2, yVal: real, lowerLeftCorner: Vec3)
    ensures Lift(p, yVal, lowerLeftCorner) == Add3(ProjectToXZPlane(p, lowerLeftCorner), Vec3(0.0, yVal, 0.0))
  {
  }

  /** The settings in ascending category order. */
  function SettingsTable(s: TerrainSettings): seq<TerrainSetting>
  {
    [s.water, s.shore, s.ground, s.lowMount, s.highMount]
  }

  /** The setting of a category: the table entry at the category's rank. The source's
      `default` branch is taken by WATER only. */
  function Setting(s: TerrainSettings, tType: TerrainType): (r: TerrainSetting)
    ensures r == SettingsTable(s)[Rank(tType)]
  {
    match tType
    case Mountain => s.highMount
    case LowMountain => s.lowMount
    case Ground => s.ground
    case Shore => s.shore
    case _ => s.water
  }

  // ---------------------------------------------------------------------------
  // Clockwise ordering of a cell's polygon

  /** atan2 of the point's offset from the centre. */
  function Angle(atan2: (real, real) -> real, center: Vec2, p: Vec2): real
  {
    atan2(p.y - center.y, p.x - center.x)
  }

  predicate ByDescendingAngle(s: seq<Vec2>, center: Vec2, atan2: (real, real) -> real)
  {
    forall a, b :: 0 <= a < b < |s| ==> Angle(atan2, center, s[a]) >= Angle(atan2, center, s[b])
  }

  /** Inserts p before the first element whose angle is not larger than p's. */
  function InsertByAngle(p: Vec2, sorted: seq<Vec2>, center: Vec2, atan2: (real, real) -> real): (r: seq<Vec2>)
    ensures |r| == |sorted| + 1
  {
    if sorted == [] || Angle(atan2, center, sorted[0]) <= Angle(atan2, center, p) then [p] + sorted
    else [sorted[0]] + InsertByAngle(p, sorted[1..], center, atan2)
  }

  /** Insertion adds p and nothing else. */
  lemma {:induction false} InsertByAnglePermutes(p: Vec2, sorted: seq<Vec2>, center: Vec2, atan2: (real, real) -> real)
    ensures multiset(InsertByAngle(p, sorted, center, atan2)) == multiset(sorted) + multiset{p}
  {
    if !(sorted == [] || Angle(atan2, center, sorted[0]) <= Angle(atan2, center, p)) {
      InsertByAnglePermutes(p, sorted[1..], center, atan2);
      assert sorted == [sorted[0]] + sorted[1..];
    }
  }

  lemma ConsByDescendingAngle(x: Vec2, s: seq<Vec2>, center: Vec2, atan2: (real, real) -> real)
    requires ByDescendingAngle(s, center, atan2)
    requires forall k :: 0 <= k < |s| ==> Angle(atan2, center, s[k]) <= Angle(atan2, center, x)
    ensures ByDescendingAngle([x] + s, center, atan2)
  {
    forall a, b | 0 <= a < b < |[x] + s|
      ensures Angle(atan2, center, ([x] + s)[a]) >= Angle(atan2, center, ([x] + s)[b])
    {
      assert ([x] + s)[b] == s[b - 1];
    }
  }

  /** Insertion keeps a sequence sorted by non-increasing angle. */
  lemma {:induction false} InsertByAngleSorted(p: Vec2, sorted: seq<Vec2>, center: Vec2, atan2: (real, real) -> real)
    requires ByDescendingAngle(sorted, center, atan2)
    ensures ByDescendingAngle(InsertByAngle(p, sorted, center, atan2), center, atan2)
  {
    if sorted == [] || Angle(atan2, center, sorted[0]) <= Angle(atan2, center, p) {
      forall k | 0 <= k < |sorted|
        ensures Angle(atan2, center, sorted[k]) <= Angle(atan2, center, p)
      {
        if k > 0 {
          assert Angle(atan2, center, sorted[0]) >= Angle(atan2, center, sorted[k]);
        }
      }
      ConsByDescendingAngle(p, sorted, center, atan2);
    } else {
      var tail := sorted[1..];
      var rest := InsertByAngle(p, tail, center, atan2);
      assert ByDescendingAngle(tail, center, atan2) by {
        forall a, b | 0 <= a < b < |tail|
          ensures Angle(atan2, center, tail[a]) >= Angle(atan2, center, tail[b])
        {
          assert tail[a] == sorted[a + 1] && tail[b] == sorted[b + 1];
        }
      }
      InsertByAngleSorted(p, tail, center, atan2);
      InsertByAnglePermutes(p, tail, center, atan2);
      forall k | 0 <= k < |rest|
        ensures Angle(atan2, center, rest[k]) <= Angle(atan2, center, sorted[0])
      {
        var q := rest[k];
        assert q in multiset(rest);
        if q != p {
          assert q in multiset(tail);
          var m :| 0 <= m < |tail| && tail[m] == q;
          assert sorted[m + 1] == q;
        }
      }
      ConsByDescendingAngle(sorted[0], rest, center, atan2);
    }
  }

  /** The cell polygon ordered by non-increasing angle about the site, as a stable sort
      (OrderByDescending) leaves it: a permutation of the input, sorted by angle. */
  function SortClockwise(points: seq<Vec2>, center: Vec2, atan2: (real, real) -> real): (r: seq<Vec2>)
    ensures |r| == |points|
  {
    if points == [] then []
    else InsertByAngle(points[0], SortClockwise(points[1..], center, atan2), center, atan2)
  }

  /** Ordering the polygon neither adds nor drops a point. */
  lemma {:induction false} SortClockwisePermutes(points: seq<Vec2>, center: Vec2, atan2: (real, real) -> real)
    ensures multiset(SortClockwise(points, center, atan2)) == multiset(points)
  {
    if points != [] {
      SortClockwisePermutes(points[1..], center, atan2);
      InsertByAnglePermutes(points[0], SortClockwise(points[1..], center, atan2), center, atan2);
      assert points == [points[0]] + points[1..];
    }
  }

  /** The ordered polygon runs by non-increasing angle about the site. */
  lemma {:induction false} SortClockwiseSorted(points: seq<Vec2>, center: Vec2, atan2: (real, real) -> real)
    ensures ByDescendingAngle(SortClockwise(points, center, atan2), center, atan2)
  {
    if points != [] {
      SortClockwiseSorted(points[1..], center, atan2);
      InsertByAngleSorted(points[0], SortClockwise(points[1..], center, atan2), center, atan2);
    }
  }

  /** The points whose angle about the centre is exactly theta, in their order. */
  function WithAngle(s: seq<Vec2>, center: Vec2, atan2: (real, real) -> real, theta: real): seq<Vec2>
  {
    if s == [] then []
    else (if Angle(atan2, center, s[0]) == theta then [s[0]] else []) + WithAngle(s[1..], center, atan2, theta)
  }

  lemma {:induction false} InsertKeepsTieOrder(p: Vec2, sorted: seq<Vec2>, center: Vec2, atan2: (real, real) -> real, theta: real)
    ensures WithAngle(InsertByAngle(p, sorted, center, atan2), center, atan2, theta) ==
      (if Angle(atan2, center, p) == theta then [p] else []) + WithAngle(sorted, center, atan2, theta)
  {
    if sorted == [] || Angle(atan2, center, sorted[0]) <= Angle(atan2, center, p) {
      assert ([p] + sorted)[1..] == sorted;
    } else {
      var rest := InsertByAngle(p, sorted[1..], center, atan2);
      InsertKeepsTieOrder(p, sorted[1..], center, atan2, theta);
      assert ([sorted[0]] + rest)[1..] == rest;
    }
  }

  /** Points with equal angles keep their input order: the sort is stable. */
  lemma {:induction false} SortClockwiseStable(points: seq<Vec2>, center: Vec2, atan2: (real, real) -> real, theta: real)
    ensures WithAngle(SortClockwise(points, center, atan2), center, atan2, theta) == WithAngle(points, center, atan2, theta)
  {
    if points != [] {
      SortClockwiseStable(points[1..], center, atan2, theta);
      InsertKeepsTieOrder(points[0], SortClockwise(points[1..], center, atan2), center, atan2, theta);
    }
  }

  // ---------------------------------------------------------------------------
  // Row-major flattening and the layout of the sites

  /** The rows of a grid, one after another. */
  function Flatten<T>(g: Grid<T>): (r: seq<T>)
    ensures forall row :: row in g ==> multiset(row) <= multiset(r)
  {
    if |g| == 0 then []
    else
      var front := g[..|g| - 1];
      assert forall row :: row in g ==> row in front || row == g[|g| - 1] by {
        assert g == front + [g[|g| - 1]];
      }
      Flatten(front) + g[|g| - 1]
  }

  lemma NextRow(i: int, cols: int)
    ensures (i + 1) * cols == i * cols + cols
  {
  }

  /** The flattened grid has rows * cols entries. */
  lemma {:induction false} FlattenLength<T>(g: Grid<T>, rows: nat, cols: nat)
    requires IsGrid(g, rows, cols)
    ensures |Flatten(g)| == rows * cols
  {
    if rows > 0 {
      FlattenLength(g[..rows - 1], rows - 1, cols);
      NextRow(rows - 1, cols);
    }
  }

  /** Cell (i, j) lands at index i * cols + j of the flattened grid. */
  lemma {:induction false} FlattenAt<T>(g: Grid<T>, rows: nat, cols: nat, i: nat, j: nat)
    requires IsGrid(g, rows, cols) && i < rows && j < cols
    ensures i * cols + j < |Flatten(g)| && Flatten(g)[i * cols + j] == g[i][j]
  {
    var front := g[..rows - 1];
    FlattenLength(front, rows - 1, cols);
    assert Flatten(g) == Flatten(front) + g[rows - 1];
    if i < rows - 1 {
      FlattenAt(front, rows - 1, cols, i, j);
    } else {
      assert i * cols + j == |Flatten(front)| + j;
    }
  }

  /** Adding row i to the first i rows appends it. */
  lemma FlattenNextRow<T>(g: Grid<T>, i: nat)
    requires i < |g|
    ensures Flatten(g[..i + 1]) == Flatten(g[..i]) + g[i]
  {
    assert g[..i + 1][..i] == g[..i];
  }

  function SiteGrid(rows: nat, cols: nat, tileSize: Vec2, offsets: Grid<Vec2>): (g: Grid<Vec2>)
    requires IsGrid(offsets, rows, cols)
    ensures IsGrid(g, rows, cols)
  {
    Build(rows, cols, (i, j) => if 0 <= i < rows && 0 <= j < cols then SitePosition(tileSize, offsets[i][j], i, j) else Zero2)
  }

  lemma SiteGridAt(rows: nat, cols: nat, tileSize: Vec2, offsets: Grid<Vec2>, i: nat, j: nat)
    requires IsGrid(offsets, rows, cols) && i < rows && j < cols
    ensures SiteGrid(rows, cols, tileSize, offsets)[i][j] == SitePosition(tileSize, offsets[i][j], i, j)
  {
  }

  /** Site (i, j) is entry i * cols + j of the flattened site list. */
  lemma SiteAt(rows: nat, cols: nat, tileSize: Vec2, offsets: Grid<Vec2>, i: nat, j: nat)
    requires IsGrid(offsets, rows, cols) && i < rows && j < cols
    ensures i * cols + j < |Flatten(SiteGrid(rows, cols, tileSize, offsets))|
    ensures Flatten(SiteGrid(rows, cols, tileSize, offsets))[i * cols + j] == SitePosition(tileSize, offsets[i][j], i, j)
  {
    FlattenAt(SiteGrid(rows, cols, tileSize, offsets), rows, cols, i, j);
  }

  /** The diagram's lower-left corner: the mesh origin moved back by half of each extent, so
      that the centre of the bounding rectangle projects onto the origin. */
  function LowerLeftCorner(meshOrigin: Vec3, lenX: real, lenY: real): (ll: Vec3)
    ensures ProjectToXZPlane(Vec2(lenX / 2.0, lenY / 2.0), ll) == meshOrigin
  {
    Vec3(meshOrigin.x - lenX * 0.5, meshOrigin.y, meshOrigin.z - lenY * 0.5)
  }

  // ---------------------------------------------------------------------------
  // The merged mesh

  /** The Voronoi cell of every site, each ordered clockwise about its site. */
  function Cells(points: seq<Vec2>, region: Vec2 -> seq<Vec2>, atan2: (real, real) -> real): (cells: seq<seq<Vec2>>)
    ensures |cells| == |points|
    ensures forall k :: 0 <= k < |points| ==> cells[k] == SortClockwise(region(points[k]), points[k], atan2)
  {
    seq(|points|, k requires 0 <= k < |points| => SortClockwise(region(points[k]), points[k], atan2))
  }

  /** Each ordered cell is a reordering of the diagram's cell: same points, same size. */
  lemma CellIsReordering(points: seq<Vec2>, region: Vec2 -> seq<Vec2>, atan2: (real, real) -> real, k: nat)
    requires k < |points|
    ensures multiset(Cells(points, region, atan2)[k]) == multiset(region(points[k]))
    ensures |Cells(points, region, atan2)[k]| == |region(points[k])|
    ensures ByDescendingAngle(Cells(points, region, atan2)[k], points[k], atan2)
  {
    SortClockwiseSorted(region(points[k]), points[k], atan2);
    SortClockwisePermutes(region(points[k]), points[k], atan2);
  }

  /** The vertices of the first n faces, in site order: cell k raised to its setting's height. */
  function FaceVertices(cells: seq<seq<Vec2>>, types: seq<TerrainType>, settings: TerrainSettings, lowerLeftCorner: Vec3, n: nat): seq<Vec3>
    requires n <= |cells| && n <= |types|
  {
    if n == 0 then []
    else FaceVertices(cells, types, settings, lowerLeftCorner, n - 1) +
         LiftAll(cells[n - 1], Setting(settings, types[n - 1]).yValue, lowerLeftCorner)
  }

  function Repeat<T>(x: T, n: nat): seq<T>
  {
    seq(n, _ => x)
  }

  /** The colours of the first n faces: each site's setting colour, once per cell vertex. */
  function FaceColors(cells: seq<seq<Vec2>>, types: seq<TerrainType>, settings: TerrainSettings, n: nat): seq<Color>
    requires n <= |cells| && n <= |types|
  {
    if n == 0 then []
    else FaceColors(cells, types, settings, n - 1) + Repeat(Setting(settings, types[n - 1]).color, |cells[n - 1]|)
  }

  /** The number of vertices of the first n cells. */
  function CellSizeSum(cells: seq<seq<Vec2>>, n: nat): nat
    requires n <= |cells|
  {
    if n == 0 then 0 else CellSizeSum(cells, n - 1) + |cells[n - 1]|
  }

  /** The triangle indices of the first n faces: each cell's fan, moved past the vertices of
      the cells before it. */
  function FaceTriangles(cells: seq<seq<Vec2>>, n: nat): seq<int>
    requires n <= |cells|
  {
    if n == 0 then []
    else FaceTriangles(cells, n - 1) + Shifted(Fan(|cells[n - 1]|), CellSizeSum(cells, n - 1))
  }

  /** Every merged index points at a vertex of the merged buffer, and the indices come in
      whole triangles. */
  lemma {:induction false} FaceTrianglesValid(cells: seq<seq<Vec2>>, n: nat)
    requires n <= |cells|
    ensures IndicesBelow(FaceTriangles(cells, n), CellSizeSum(cells, n))
  {
    if n > 0 {
      FaceTrianglesValid(cells, n - 1);
      FanIndicesValid(Fan(|cells[n - 1]|), |cells[n - 1]|);
      ShiftedIndicesValid(FaceTriangles(cells, n - 1), CellSizeSum(cells, n - 1), Fan(|cells[n - 1]|), |cells[n - 1]|);
    }
  }

  /** The merged buffer holds exactly one vertex, and one colour, per cell vertex. */
  lemma {:induction false} FaceVerticesCount(cells: seq<seq<Vec2>>, types: seq<TerrainType>, settings: TerrainSettings, lowerLeftCorner: Vec3, n: nat)
    requires n <= |cells| && n <= |types|
    ensures |FaceVertices(cells, types, settings, lowerLeftCorner, n)| == CellSizeSum(cells, n)
    ensures |FaceColors(cells, types, settings, n)| == CellSizeSum(cells, n)
  {
    if n > 0 {
      FaceVerticesCount(cells, types, settings, lowerLeftCorner, n - 1);
    }
  }

  /** Appending face i to a buffer holding the first i faces gives the first i + 1 faces. */
  lemma MergeStep(cells: seq<seq<Vec2>>, types: seq<TerrainType>, settings: TerrainSettings, lowerLeftCorner: Vec3, i: nat,
                  vertices0: seq<Vec3>, triangles0: seq<int>, colors0: seq<Color>, count0: int,
                  face: seq<Vec3>, faceTriangles: seq<int>, faceColors: seq<Color>, faceCount: int,
                  vertices1: seq<Vec3>, triangles1: seq<int>, colors1: seq<Color>, count1: int)
    requires i < |cells| && i < |types|
    requires vertices0 == FaceVertices(cells, types, settings, lowerLeftCorner, i)
    requires triangles0 == FaceTriangles(cells, i)
    requires colors0 == FaceColors(cells, types, settings, i)
    requires count0 == CellSizeSum(cells, i)
    requires face == LiftAll(cells[i], Setting(settings, types[i]).yValue, lowerLeftCorner)
    requires faceCount == |cells[i]| && |faceColors| == faceCount && IsFan(faceTriangles, faceCount)
    requires forall k :: 0 <= k < |faceColors| ==> faceColors[k] == Setting(settings, types[i]).color
    requires vertices1 == vertices0 + face && colors1 == colors0 + faceColors && count1 == count0 + faceCount
    requires triangles1 == triangles0 + Shifted(faceTriangles, count0)
    ensures vertices1 == FaceVertices(cells, types, settings, lowerLeftCorner, i + 1)
    ensures triangles1 == FaceTriangles(cells, i + 1)
    ensures colors1 == FaceColors(cells, types, settings, i + 1)
    ensures count1 == CellSizeSum(cells, i + 1)
  {
    assert faceColors == Repeat(Setting(settings, types[i]).color, |cells[i]|);
  }

  /** The buffer t holds the faces of the first n cells, merged in site order: their vertices,
      their fans shifted past the faces before them, their colours and their vertex tally. */
  ghost predicate MergedFaces(t: TerrainMeshInformation, cells: seq<seq<Vec2>>, types: seq<TerrainType>, settings: TerrainSettings,
                              lowerLeftCorner: Vec3, n: nat)
    reads t
  {
    && n <= |cells| && n <= |types|
    && t.Valid()
    && t.vertices == FaceVertices(cells, types, settings, lowerLeftCorner, n)
    && t.triangles == FaceTriangles(cells, n)
    && t.colors == FaceColors(cells, types, settings, n)
    && t.count == CellSizeSum(cells, n)
  }

  /** The loop of the Voronoi mesh generation: for each of the first n sites, its cell ordered
      clockwise becomes a top face at its setting's height and colour, appended to one buffer. */
  method MergeSiteFaces(points: seq<Vec2>, types: seq<TerrainType>, settings: TerrainSettings, lowerLeftCorner: Vec3,
                        region: Vec2 -> seq<Vec2>, atan2: (real, real) -> real, n: nat)
    returns (terrain: TerrainMeshInformation)
    requires n <= |points| && n <= |types|
    ensures fresh(terrain)
    ensures MergedFaces(terrain, Cells(points, region, atan2), types, settings, lowerLeftCorner, n)
  {
    ghost var cells := Cells(points, region, atan2);
    terrain := new TerrainMeshInformation();
    for i := 0 to n
      invariant fresh(terrain)
      invariant MergedFaces(terrain, cells, types, settings, lowerLeftCorner, i)
    {
      var curType := types[i];
      var yOffset := Setting(settings, curType).yValue;
      var color := Setting(settings, curType).color;
      var curLocation := points[i];
      var polygonForSite := SortClockwise(region(curLocation), curLocation, atan2);
      assert polygonForSite == cells[i];
      var newInfo := new TopFaceMeshInformation(polygonForSite, yOffset, color, lowerLeftCorner);
      ghost var vertices0, triangles0, colors0, count0 := terrain.vertices, terrain.triangles, terrain.colors, terrain.count;
      terrain.AddTopFaceMeshInfo(newInfo);
      MergeStep(cells, types, settings, lowerLeftCorner, i, vertices0, triangles0, colors0, count0,
                newInfo.vertices, newInfo.triangles, newInfo.colors, newInfo.vertexCount,
                terrain.vertices, terrain.triangles, terrain.colors, terrain.count);
    }
  }

  // ---------------------------------------------------------------------------
  // The generator

  /** Init's row-major walk: site (i, j) and its category land at index i * columns + j. */
  method FlattenSites(gridRows: nat, gridCols: nat, tile: Vec2,
                      terrainGrid: array2<TerrainType>, ghost tgrid: Grid<TerrainType>,
                      posnOffsets: array2<Vec2>, ghost ogrid: Grid<Vec2>)
    returns (pts: seq<Vec2>, tys: seq<TerrainType>)
    requires terrainGrid.Length0 == gridRows && terrainGrid.Length1 == gridCols && Holds(terrainGrid, tgrid)
    requires posnOffsets.Length0 == gridRows && posnOffsets.Length1 == gridCols && Holds(posnOffsets, ogrid)
    ensures pts == Flatten(SiteGrid(gridRows, gridCols, tile, ogrid))
    ensures tys == Flatten(tgrid)
    ensures |pts| == |tys| == gridRows * gridCols
  {
    ghost var sites := SiteGrid(gridRows, gridCols, tile, ogrid);
    pts := [];
    tys := [];
    for i := 0 to gridRows
      invariant pts == Flatten(sites[..i])
      invariant tys == Flatten(tgrid[..i])
    {
      for j := 0 to gridCols
        invariant pts == Flatten(sites[..i]) + sites[i][..j]
        invariant tys == Flatten(tgrid[..i]) + tgrid[i][..j]
      {
        SiteGridAt(gridRows, gridCols, tile, ogrid, i, j);
        pts := pts + [SitePosition(tile, posnOffsets[i, j], i, j)];
        tys := tys + [terrainGrid[i, j]];
        assert sites[i][..j + 1] == sites[i][..j] + [sites[i][j]];
        assert tgrid[i][..j + 1] == tgrid[i][..j] + [tgrid[i][j]];
      }
      assert sites[i][..gridCols] == sites[i] && tgrid[i][..gridCols] == tgrid[i];
      FlattenNextRow(sites, i);
      FlattenNextRow(tgrid, i);
    }
    assert sites[..gridRows] == sites && tgrid[..gridRows] == tgrid;
    FlattenLength(sites, gridRows, gridCols);
    FlattenLength(tgrid, gridRows, gridCols);
  }

  class VoronoiMeshGeneration {
    // configuration
    const meshOrigin: Vec3
    const rows: nat
    const columns: nat
    const tileSize: Vec2
    const offsetEvenColumns: bool
    const randomAmt: real
    const settings: TerrainSettings

    // state of the last generation
    var kernel: array2<real>
    var generatedTileTypes: array2<TerrainType>
    var tileLocs: array2<Vec3>
    var points2D: seq<Vec2>
    var terrainTypes: seq<TerrainType>
    var lowerLeftCorner: Vec3
    var bounds: Rect
    var numPoints: int
    /** The merged buffer that the source uploads to its mesh filter. */
    var mesh: TerrainMeshInformation?

    constructor (meshOrigin: Vec3, rows: nat, columns: nat, tileSize: Vec2, offsetEvenColumns: bool, randomAmt: real, settings: TerrainSettings)
      ensures this.meshOrigin == meshOrigin && this.rows == rows && this.columns == columns && this.tileSize == tileSize
      ensures this.offsetEvenColumns == offsetEvenColumns && this.randomAmt == randomAmt && this.settings == settings
      ensures points2D == [] && terrainTypes == [] && numPoints == 0 && mesh == null
    {
      this.meshOrigin := meshOrigin;
      this.rows := rows;
      this.columns := columns;
      this.tileSize := tileSize;
      this.offsetEvenColumns := offsetEvenColumns;
      this.randomAmt := randomAmt;
      this.settings := settings;
      kernel := new real[0, 0];
      generatedTileTypes := new TerrainType[0, 0];
      tileLocs := new Vec3[0, 0];
      points2D := [];
      terrainTypes := [];
      lowerLeftCorner := Zero3;
      bounds := Rect(0.0, 0.0, 0.0, 0.0);
      numPoints := 0;
      mesh := null;
    }

    /** The mesh holds one face per site, merged in site order, with every index valid. */
    ghost predicate MeshMatches(region: Vec2 -> seq<Vec2>, atan2: (real, real) -> real)
      reads this, mesh
    {
      && mesh != null
      && 0 <= numPoints
      && MergedFaces(mesh, Cells(points2D, region, atan2), terrainTypes, settings, lowerLeftCorner, numPoints)
    }

    /** The tile arrays are rows by columns and hold the given category and location grids. */
    ghost predicate TilesHold(tgrid: Grid<TerrainType>, lgrid: Grid<Vec3>)
      reads this`generatedTileTypes, this`tileLocs, generatedTileTypes, tileLocs
    {
      && generatedTileTypes.Length0 == rows && generatedTileTypes.Length1 == columns
      && tileLocs.Length0 == rows && tileLocs.Length1 == columns
      && Holds(generatedTileTypes, tgrid)
      && Holds(tileLocs, lgrid)
    }

    /** The layout Init leaves: a bounding rectangle one tile larger than the grid in each
        direction, the lower-left corner centring it on the mesh origin, and the sites and
        their categories flattened row by row, one per cell. */
    ghost predicate LaidOut(gridRows: nat, gridCols: nat, tile: Vec2, tgrid: Grid<TerrainType>, ogrid: Grid<Vec2>)
      reads this`bounds, this`lowerLeftCorner, this`points2D, this`terrainTypes, this`numPoints
    {
      && IsGrid(ogrid, gridRows, gridCols)
      && bounds == Rect(0.0, 0.0, (gridRows + 1) as real * tile.x, (gridCols + 1) as real * tile.y)
      && lowerLeftCorner == LowerLeftCorner(meshOrigin, bounds.width, bounds.height)
      && points2D == Flatten(SiteGrid(gridRows, gridCols, tile, ogrid))
      && terrainTypes == Flatten(tgrid)
      && numPoints == |points2D| == |terrainTypes| == gridRows * gridCols
    }

    /** Builds the merged buffer: one top face per site, water included, each from the site's
        cell ordered clockwise, at its setting's height and in its setting's colour. */
    method GenerateMeshVoronoi(region: Vec2 -> seq<Vec2>, atan2: (real, real) -> real)
      requires 0 <= numPoints <= |points2D| && numPoints <= |terrainTypes|
      modifies this`mesh
      ensures fresh(mesh)
      ensures MeshMatches(region, atan2)
    {
      mesh := MergeSiteFaces(points2D, terrainTypes, settings, lowerLeftCorner, region, atan2, numPoints);
    }

    /** Computes the bounds and the lower-left corner, flattens the grids row by row into
        the site and category lists, and builds the mesh. */
    method Init(gridRows: nat, gridCols: nat, tile: Vec2,
                terrainGrid: array2<TerrainType>, ghost tgrid: Grid<TerrainType>,
                posnOffsets: array2<Vec2>, ghost ogrid: Grid<Vec2>,
                region: Vec2 -> seq<Vec2>, atan2: (real, real) -> real)
      requires terrainGrid.Length0 == gridRows && terrainGrid.Length1 == gridCols && Holds(terrainGrid, tgrid)
      requires posnOffsets.Length0 == gridRows && posnOffsets.Length1 == gridCols && Holds(posnOffsets, ogrid)
      modifies this`bounds, this`lowerLeftCorner, this`points2D, this`terrainTypes, this`numPoints, this`mesh
      ensures LaidOut(gridRows, gridCols, tile, tgrid, ogrid)
      ensures fresh(mesh) && MeshMatches(region, atan2)
    {
      var lenX := (gridRows + 1) as real * tile.x;
      var lenY := (gridCols + 1) as real * tile.y;
      assert IsGrid(ogrid, gridRows, gridCols);
      var pts, tys := FlattenSites(gridRows, gridCols, tile, terrainGrid, tgrid, posnOffsets, ogrid);
      bounds, lowerLeftCorner := Rect(0.0, 0.0, lenX, lenY), Vec3(meshOrigin.x - lenX * 0.5, meshOrigin.y, meshOrigin.z - lenY * 0.5);
      points2D, terrainTypes, numPoints := pts, tys, |pts|;
      assert LaidOut(gridRows, gridCols, tile, tgrid, ogrid);
      GenerateMeshVoronoi(region, atan2);
    }

    /** Fills the kernel with upper scale 1.1. */
    method GenerateKernel(curve: real -> real)
      modifies this`kernel
      ensures fresh(kernel) && kernel.Length0 == rows && kernel.Length1 == columns
      ensures Holds(kernel, KernelGrid(rows, columns, MaxScale, curve))
    {
      kernel := TileGrid.GenerateKernel(rows, columns, MaxScale, curve);
    }

    /** Classifies the grid (forcing a water border), runs the shore pass on grids larger than
        8 by 8, computes the offsets and hands everything to Init. */
    method InstantiateTiles(noise: (real, real) -> real, xOff: nat, yOff: nat, jitter: (int, int) -> Vec2,
                            region: Vec2 -> seq<Vec2>, atan2: (real, real) -> real, ghost kgrid: Grid<real>)
      requires kernel.Length0 == rows && kernel.Length1 == columns && Holds(kernel, kgrid)
      modifies this`generatedTileTypes, this`tileLocs
      modifies this`bounds, this`lowerLeftCorner, this`points2D, this`terrainTypes, this`numPoints, this`mesh
      ensures fresh(generatedTileTypes) && fresh(tileLocs)
      ensures TilesHold(FinalTypes(noise, kgrid, rows, columns, xOff, yOff), TileLocGrid(rows, columns, tileSize, offsetEvenColumns))
      ensures LaidOut(rows, columns, tileSize, FinalTypes(noise, kgrid, rows, columns, xOff, yOff),
                      OffsetGrid(rows, columns, offsetEvenColumns, randomAmt, jitter))
      ensures fresh(mesh) && MeshMatches(region, atan2)
    {
      var locs, types, posnOffsets2D := LayOutTiles(rows, columns, tileSize, offsetEvenColumns, kernel, kgrid, noise, xOff, yOff, Classify, randomAmt, jitter);
      tileLocs, generatedTileTypes := locs, types;
      ghost var tgrid := FinalTypes(noise, kgrid, rows, columns, xOff, yOff);
      ghost var ogrid := OffsetGrid(rows, columns, offsetEvenColumns, randomAmt, jitter);
      assert TilesHold(tgrid, TileLocGrid(rows, columns, tileSize, offsetEvenColumns));
      Init(rows, columns, tileSize, types, tgrid, posnOffsets2D, ogrid, region, atan2);
    }

    /** One generation: the kernel, then the tiles and the mesh. */
    method StartGeneration(curve: real -> real, noise: (real, real) -> real, xOff: nat, yOff: nat, jitter: (int, int) -> Vec2,
                           region: Vec2 -> seq<Vec2>, atan2: (real, real) -> real)
      modifies this
      ensures Holds(kernel, KernelGrid(rows, columns, MaxScale, curve))
      ensures Holds(generatedTileTypes, FinalTypes(noise, KernelGrid(rows, columns, MaxScale, curve), rows, columns, xOff, yOff))
      ensures Holds(tileLocs, TileLocGrid(rows, columns, tileSize, offsetEvenColumns))
      ensures LaidOut(rows, columns, tileSize, FinalTypes(noise, KernelGrid(rows, columns, MaxScale, curve), rows, columns, xOff, yOff),
                      OffsetGrid(rows, columns, offsetEvenColumns, randomAmt, jitter))
      ensures fresh(mesh) && MeshMatches(region, atan2)
    {
      GenerateKernel(curve);
      InstantiateTiles(noise, xOff, yOff, jitter, region, atan2, KernelGrid(rows, columns, MaxScale, curve));
    }
  }
}
