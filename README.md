# Voronoi-Tiles terrain generation, modelled in Dafny

Voronoi-Tiles builds a stylised terrain in Unity in four steps:

1. It lays out a rows-by-columns grid of tiles.
2. It classifies every tile from Perlin noise modulated by a centre-weighted "kernel". The border is forced to water. On grids larger than 8 by 8, ground next to water becomes shore.
3. It places one jittered Voronoi site per tile.
4. It merges one coloured top face per Voronoi cell into a single terrain mesh. The cell's points are ordered clockwise around the site, raised to the height of the tile's terrain setting and fan-triangulated.

An older generator (`TileGen/TileGeneration.cs`) shares the layout. It classifies into three bands instead of five, uses a larger kernel scale, and hands the grid to a Delaunay generator that only stores it.

The model has one module per concern:

- `Geometry` holds Unity's vector, colour and rect types, plus `Abs`, `Clamp01` and `Lerp`.
- `Terrain` holds the terrain categories with their enum values, and the display settings.
- `TileGrid` holds what both generators share:
  - the kernel, the first classification pass (with the classifier as a parameter), the tile locations and the per-cell offsets;
  - the 8-neighbour lookup and the in-place shore pass;
  - the array-filling loops.
- `VoronoiMesh` holds the five-band classifier, the settings lookup, the clockwise sort, the row-major flattening of `Init`, and the merged top-face mesh. It also holds the generator class with `Init`, `GenerateMeshVoronoi`, `InstantiateTiles` and `StartGeneration`.
- `TileGeneration` holds the three-band variant and its generator class.
- `MeshStructs` holds the top-face, wall and merged terrain buffers; `MeshInformation` the colourless top face.
- `DelauneyMesh` holds `GenerationData` and the Delaunay generator's `Init`.

Each C# 2D array is a Dafny `array2`. The loops that fill it are proved against a specification grid (`seq<seq<T>>`), and the predicate `Holds(a, g)` ties the array to that grid. The generator classes keep the source's fields and update them in place.

Several of the program's inputs are parameters of the model:

- the Perlin noise function;
- the clock's seconds and milliseconds (`xOff`, `yOff`);
- the random jitter draws;
- the animation curve;
- `atan2`;
- the Voronoi library's `Region` query.

Single-precision floats are modelled as reals.

## Model

| member | source | states |
|---|---|---|
| Geometry.Clamp01 | Assets/Scripts/VoronoiMeshGeneration.cs:394-395 | The result lies in [0, 1]. It is the input when the input is in range, 0 below the range and 1 above it. |
| Geometry.Lerp | Assets/Scripts/VoronoiMeshGeneration.cs:397-398 | Unity's Lerp clamps its parameter. For a parameter t in [0, 1] the result is (1 - t)·a + t·b; a parameter <= 0 gives a and one >= 1 gives b, so the result always lies between the ends (when a <= b). |
| Geometry.Abs | Assets/Scripts/VoronoiMeshGeneration.cs:394 | The result is non-negative and equals x or -x. |
| Terrain.ValueFollowsDeclarationOrder | Assets/Scripts/TerrainType.cs:5-12 | Comparing categories by their integer values (0, 1, 7, 30, 45) agrees with their declaration order, and distinct categories have distinct values. |
| TileGrid.Build | Assets/Scripts/VoronoiMeshGeneration.cs:280-283 | The built grid has the given dimensions and holds f(i, j) at every in-range cell. |
| TileGrid.Half | Assets/Scripts/VoronoiMeshGeneration.cs:387-388 | Ceil(n / 2): twice the result is n or n + 1. |
| TileGrid.KernelAxis | Assets/Scripts/VoronoiMeshGeneration.cs:394-395 | The falloff lies in [0, 1]. It is exactly 1 iff i + 1 == ceil(n / 2). |
| TileGrid.KernelEntry | Assets/Scripts/VoronoiMeshGeneration.cs:384-398 | A kernel entry is the product of the row and column interpolations between minScale and maxScale. Whatever the curve returns, it lies in [minScale², maxScale²] when maxScale >= minScale. |
| TileGrid.KernelAxisMirroredWhenOdd | Assets/Scripts/VoronoiMeshGeneration.cs:387-395 | For an odd size the falloff is mirror-symmetric: cells i and n-1-i get the same value. |
| TileGrid.KernelAxisNotMirroredWhenEven | Assets/Scripts/VoronoiMeshGeneration.cs:387-395 | For size 4 the first cell gets 0.5 and the last 0: the even kernel is lopsided. |
| TileGrid.SampleCoord | Assets/Scripts/VoronoiMeshGeneration.cs:293-294 | The noise coordinate ((i + off) mod n) / n lies in [0, 1). |
| TileGrid.Intensity | Assets/Scripts/VoronoiMeshGeneration.cs:292-298 | The kernel-modulated noise at a cell. With a positive kernel entry it is above 0 exactly when the sampled noise is; with a zero entry it is 0. |
| TileGrid.FirstPassCell | Assets/Scripts/VoronoiMeshGeneration.cs:289-325 | A border cell is water. Any other cell is water or the classifier's category for its intensity. |
| TileGrid.FirstPass | Assets/Scripts/VoronoiMeshGeneration.cs:280-327 | The first-pass grid has rows × cols cells. |
| TileGrid.FirstPassShape | Assets/Scripts/VoronoiMeshGeneration.cs:289-325 | After the first pass every border cell is water, and no cell holds a category the classifier never produces. |
| TileGrid.TileLoc | Assets/Scripts/VoronoiMeshGeneration.cs:276-287 | Tile (i, j) sits at x = -(rows-1)/2·tx + i·tx and y = 0. Its z is -(cols-1)/2·ty + j·ty, moved by half a tile width on odd rows when staggering is on. |
| TileGrid.TileLocGrid | Assets/Scripts/VoronoiMeshGeneration.cs:270-287 | The tile-location grid has rows × cols cells. |
| TileGrid.TileLocsCentred | Assets/Scripts/VoronoiMeshGeneration.cs:270-287 | Tile locations are centred: mirrored rows have opposite x, and without stagger mirrored columns have opposite z. Neighbouring rows are one tile width apart, and every tile lies at y = 0. |
| TileGrid.Offset | Assets/Scripts/VoronoiMeshGeneration.cs:365-372 | Without stagger the offset is randomAmt · jitter(i, j). With randomAmt = 0 it is the stagger offset (0, (i mod 2) · 0.5) alone, or zero. |
| TileGrid.OffsetGrid | Assets/Scripts/VoronoiMeshGeneration.cs:353-377 | The offset grid has rows × cols cells. |
| TileGrid.OffsetsDeterministicWithoutJitter | Assets/Scripts/VoronoiMeshGeneration.cs:365-372 | With randomAmt = 0 the offsets do not depend on the random draws: each is the stagger offset (0, (i mod 2) · 0.5) or zero. |
| TileGrid.SitePosition | Assets/Scripts/VoronoiMeshGeneration.cs:142-151 | The site of cell (i, j) is the centre of its tile, ((i + 0.5)·tx, (j + 0.5)·ty), plus the cell's offset. |
| TileGrid.SiteInsideTile | Assets/Scripts/VoronoiMeshGeneration.cs:142-151 | A site whose offset is within half a tile of zero lies inside its own tile's square. |
| TileGrid.CornerHasThreeNeighbors | Assets/Scripts/VoronoiMeshGeneration.cs:406-451 | The corner cell's neighbour set is exactly the types of its three in-bounds neighbours. It has at most 3 elements, with no wraparound. |
| TileGrid.WaterInNeighborTypes | Assets/Scripts/VoronoiMeshGeneration.cs:338-340 | WATER is in the neighbour set iff some in-bounds 8-neighbour (other than the cell itself) is water. |
| TileGrid.SameWaterSameNeighbors | Assets/Scripts/VoronoiMeshGeneration.cs:332-345 | Two grids with the same water cells agree on whether a cell has a water neighbour. This is why the in-place shore pass equals a simultaneous one. |
| TileGrid.ShoreCell | Assets/Scripts/VoronoiMeshGeneration.cs:336-341 | A cell is water after the step iff it was before. The only change is GROUND to SHORE, and GROUND next to water always becomes SHORE. |
| TileGrid.ShorePass | Assets/Scripts/VoronoiMeshGeneration.cs:330-346 | The shore pass keeps the grid's dimensions. |
| TileGrid.ShorePassAt | Assets/Scripts/VoronoiMeshGeneration.cs:330-346 | A cell becomes SHORE iff the grid is larger than 8 by 8, the cell is GROUND and it has a water neighbour. Every other cell is unchanged, and the pass never creates or removes water. |
| TileGrid.ShorePassIdempotent | Assets/Scripts/VoronoiMeshGeneration.cs:330-346 | Running the shore pass twice gives the same grid as running it once. |
| TileGrid.ShorePassKeepsBorder | Assets/Scripts/VoronoiMeshGeneration.cs:330-346 | The shore pass keeps a water border water. |
| TileGrid.GenerateKernel | Assets/Scripts/VoronoiMeshGeneration.cs:379-402 | Returns a fresh rows × cols array holding the kernel grid, entry by entry. |
| TileGrid.ClassifyTiles | Assets/Scripts/VoronoiMeshGeneration.cs:266-327 | Returns fresh rows × cols arrays. One holds every tile location. The other holds the first-pass category: classified intensity inside, water on the border. |
| TileGrid.Generate2DOffsets | Assets/Scripts/VoronoiMeshGeneration.cs:353-377 | Returns a fresh rows × cols array holding randomAmt · jitter(i, j) plus the stagger offset. The category argument is ignored. |
| TileGrid.GetNeighborTypes | Assets/Scripts/VoronoiMeshGeneration.cs:406-451 | The set built by the eight guarded Adds is exactly the set of types of the in-bounds 8-neighbours. |
| TileGrid.ApplyShorePass | Assets/Scripts/VoronoiMeshGeneration.cs:330-346 | The in-place, row-by-row pass leaves the array holding the simultaneous shore pass of the grid it started with. |
| TileGrid.LayOutTiles | Assets/Scripts/VoronoiMeshGeneration.cs:266-348 | Runs classification, shore pass and offsets: tile locations, the shore-passed categories and the offsets, each in its own fresh array. |
| VoronoiMesh.Classify | Assets/Scripts/VoronoiMeshGeneration.cs:300-319 | Never SHORE. The result is the highest category whose value lies strictly below the intensity, or WATER when none does. |
| VoronoiMesh.FinalTypes | Assets/Scripts/VoronoiMeshGeneration.cs:280-346 | The final category grid has rows × cols cells. |
| VoronoiMesh.FinalTypesShape | Assets/Scripts/VoronoiMeshGeneration.cs:289-346 | The finished grid has a water border, and holds no SHORE on grids of 8 or fewer rows or columns. |
| VoronoiMesh.ProjectToXZPlane | Assets/Scripts/VoronoiMeshGeneration.cs:229-235 | The projected point keeps the corner's height, and subtracting the corner gives back the 2D point (x to x, y to z). |
| VoronoiMesh.LiftIsRaisedProjection | Assets/Scripts/MeshStructs/TopFaceMeshInformation.cs:47-61 | A top-face vertex is the XZ projection of its point raised by the face height. |
| VoronoiMesh.Setting | Assets/Scripts/VoronoiMeshGeneration.cs:237-252 | Each category selects its own setting, in declaration order: water, shore, ground, low mountain, high mountain. |
| VoronoiMesh.InsertByAngle | Assets/Scripts/VoronoiMeshGeneration.cs:254-259 | Inserting a point into the ordered list makes it one longer. Its content and order are proved in InsertByAnglePermutes and InsertByAngleSorted. |
| VoronoiMesh.InsertByAnglePermutes | Assets/Scripts/VoronoiMeshGeneration.cs:254-259 | Inserting a point adds exactly that point to the multiset. |
| VoronoiMesh.InsertByAngleSorted | Assets/Scripts/VoronoiMeshGeneration.cs:254-259 | Inserting into a list ordered by descending angle keeps it ordered. |
| VoronoiMesh.SortClockwise | Assets/Scripts/VoronoiMeshGeneration.cs:254-259 | The sorted list has as many points as the input. |
| VoronoiMesh.SortClockwisePermutes | Assets/Scripts/VoronoiMeshGeneration.cs:254-259 | The sorted list is a permutation of the input. |
| VoronoiMesh.SortClockwiseSorted | Assets/Scripts/VoronoiMeshGeneration.cs:254-259 | The sorted list's angles about the centre never increase. |
| VoronoiMesh.SortClockwiseStable | Assets/Scripts/VoronoiMeshGeneration.cs:254-259 | The sort is stable, like OrderByDescending: for every angle, the points with that angle keep their input order. |
| VoronoiMesh.Flatten | Assets/Scripts/VoronoiMeshGeneration.cs:145-154 | The rows one after another: every row's entries appear in the flattening (no cell is lost). |
| VoronoiMesh.FlattenLength | Assets/Scripts/VoronoiMeshGeneration.cs:145-156 | Flattening a rows × cols grid gives rows · cols elements. |
| VoronoiMesh.FlattenAt | Assets/Scripts/VoronoiMeshGeneration.cs:145-154 | Cell (i, j) lands at index i · cols + j (row-major order). |
| VoronoiMesh.SiteGridAt | Assets/Scripts/VoronoiMeshGeneration.cs:142-151 | Site (i, j) is (tx/2 + i·tx, ty/2 + j·ty) plus its offset. |
| VoronoiMesh.SiteAt | Assets/Scripts/VoronoiMeshGeneration.cs:142-154 | Index i · cols + j of the site list holds (tx/2 + i·tx, ty/2 + j·ty) plus offset (i, j). |
| VoronoiMesh.LowerLeftCorner | Assets/Scripts/VoronoiMeshGeneration.cs:136 | The rectangle's centre, projected from the lower-left corner, is the mesh origin. |
| VoronoiMesh.Cells | Assets/Scripts/VoronoiMeshGeneration.cs:185 | One cell per site: the site's Voronoi region sorted clockwise about the site. |
| VoronoiMesh.CellIsReordering | Assets/Scripts/VoronoiMeshGeneration.cs:185 | Each cell holds exactly its region's points, with the same length, ordered by non-increasing angle. |
| VoronoiMesh.FaceVerticesCount | Assets/Scripts/VoronoiMeshGeneration.cs:173-190 | The merged vertex and colour lists each have as many entries as the cells have points in total. |
| VoronoiMesh.FaceTrianglesValid | Assets/Scripts/MeshStructs/TerrainMeshInformation.cs:47-55 | The merged index list of the first n faces comes in whole triangles, and every index points at one of the vertices of those faces. |
| VoronoiMesh.MergeStep | Assets/Scripts/VoronoiMeshGeneration.cs:173-190 | Appending site i's face (its cell lifted to its setting's height, its fan shifted past the vertices already merged, in its colour) to the first i faces gives the first i + 1 faces: vertices, triangles, colours and tally. |
| VoronoiMesh.MergeSiteFaces | Assets/Scripts/VoronoiMeshGeneration.cs:169-190 | The fresh buffer holds, site by site, each cell lifted to its category's height. Its triangles are each cell's fan shifted by the number of vertices of the cells before it. Its colours are each site's setting colour repeated, and the tally is the total cell size. Water sites get a face too. |
| VoronoiMesh.FlattenSites | Assets/Scripts/VoronoiMeshGeneration.cs:139-156 | The site and category lists are the row-major flattenings of the site grid and the category grid, each rows · cols long. |
| VoronoiMesh.VoronoiMeshGeneration.GenerateMeshVoronoi | Assets/Scripts/VoronoiMeshGeneration.cs:167-224 | The generator's mesh is fresh and holds the merged faces (vertices, shifted fans, colours, tally) of the first numPoints sites and categories. |
| VoronoiMesh.VoronoiMeshGeneration.Init | Assets/Scripts/VoronoiMeshGeneration.cs:127-165 | Bounds are (rows+1)·tx by (cols+1)·ty. The lower-left corner centres them on the origin. The site and category lists are the row-major flattenings, numPoints = rows · cols, and the mesh is built from them. |
| VoronoiMesh.VoronoiMeshGeneration.GenerateKernel | Assets/Scripts/VoronoiMeshGeneration.cs:379-402 | The kernel field is a fresh rows × cols array holding the kernel with upper scale 1.1. |
| VoronoiMesh.VoronoiMeshGeneration.InstantiateTiles | Assets/Scripts/VoronoiMeshGeneration.cs:261-351 | The tile fields are fresh rows × columns arrays holding the tile locations and the final (shore-passed) categories. Init's layout follows: the bounds, the lower-left corner, the flattened sites and categories, numPoints = rows · columns, and the mesh merged from all of them. |
| VoronoiMesh.VoronoiMeshGeneration.StartGeneration | Assets/Scripts/VoronoiMeshGeneration.cs:118-123 | After one generation the kernel, the tile locations, the final categories over that kernel, the bounds, the corner, the flattened sites and categories, numPoints = rows · columns and the mesh merged from them all agree. |
| TileGeneration.ClassifyTile | Assets/Scripts/TileGen/TileGeneration.cs:98-111 | Only WATER, GROUND or MOUNTAIN. MOUNTAIN iff the intensity exceeds 7; WATER iff it is at most 0. |
| TileGeneration.ClassifyTileMonotone | Assets/Scripts/TileGen/TileGeneration.cs:98-111 | A higher intensity never gives a lower category. |
| TileGeneration.ThreeBandsCoarsenFiveBands | Assets/Scripts/TileGen/TileGeneration.cs:98-111 | The three bands are a coarsening of the five: MOUNTAIN iff the five-band classifier says anything but water. Five-band WATER splits into WATER (at most 0) and GROUND. |
| TileGeneration.FinalTileTypes | Assets/Scripts/TileGen/TileGeneration.cs:77-138 | The final category grid has rows × cols cells. |
| TileGeneration.FinalTileTypesShape | Assets/Scripts/TileGen/TileGeneration.cs:86-138 | The finished grid has a water border, never holds LOWMOUNTAIN, and holds SHORE only on grids larger than 8 by 8. |
| TileGeneration.TileGeneration.GenerateKernel | Assets/Scripts/TileGen/TileGeneration.cs:232-255 | The kernel field is a fresh rows × cols array holding the kernel with upper scale 1.75. |
| TileGeneration.TileGeneration.ClearPrevGeneration | Assets/Scripts/TileGen/TileGeneration.cs:217-230 | Clearing regenerates the kernel for the current grid size. |
| TileGeneration.TileGeneration.InstantiateTiles | Assets/Scripts/TileGen/TileGeneration.cs:58-145 | The tile fields hold the tile locations and the final three-band categories. The Delaunay generator is initialised with fresh data holding the origin, size and tile size, the extents rows·tx by columns·ty, and site (i, j) = (tx/2 + i·tx, ty/2 + j·ty) + offset (i, j). |
| TileGeneration.TileGeneration.StartGeneration | Assets/Scripts/TileGen/TileGeneration.cs:309-313 | After one generation the kernel, the categories over that kernel and the tile locations agree. The Delaunay generator is initialised with the origin, size, tile size, extents and every site, as after InstantiateTiles. |
| MeshStructs.Lift | Assets/Scripts/MeshStructs/TopFaceMeshInformation.cs:52-58 | A lifted point sits at the corner's height plus the face height. Subtracting the corner gives back the 2D point in x and z. |
| MeshStructs.To3D | Assets/Scripts/MeshStructs/TopFaceMeshInformation.cs:47-61 | One vertex per input point, in order, each the lifted point. |
| MeshStructs.FanTriple | Assets/Scripts/MeshStructs/TopFaceMeshInformation.cs:74-79 | Triangle t of the fan is (0, t+1, t+2), so every triangle shares vertex 0. |
| MeshStructs.FanIndicesValid | Assets/Scripts/MeshStructs/TopFaceMeshInformation.cs:63-82 | A fan over n vertices uses only indices in [0, n), in whole triangles. |
| MeshStructs.Fan | Assets/Scripts/MeshStructs/TopFaceMeshInformation.cs:63-82 | The fan over n vertices as one sequence; it is the only sequence that is a fan over n vertices. |
| MeshStructs.TriangulatePoly | Assets/Scripts/MeshStructs/TopFaceMeshInformation.cs:63-82 | The result is the fan: 3(n-2) indices with triple k = (0, k+1, k+2), and empty when n < 3. |
| MeshStructs.PopulateColorArray | Assets/Scripts/MeshStructs/TopFaceMeshInformation.cs:84-92 | count copies of the colour (none for a negative count). |
| MeshStructs.TopFaceMeshInformation.constructor | Assets/Scripts/MeshStructs/TopFaceMeshInformation.cs:38-45 | The vertices are the lifted polygon and vertexCount is the polygon length. The triangles are its fan, and there is one colour per vertex, all the given colour. |
| MeshStructs.WallCornerMeetsTopFace | Assets/Scripts/MeshStructs/WallMeshInformation.cs:37-40 | A wall corner at height y coincides with the top-face vertex lifted to y, so walls would meet the faces. |
| MeshStructs.WallMeshInformation.constructor | Assets/Scripts/MeshStructs/WallMeshInformation.cs:34-55 | Exactly four vertices, in the order upTo, upFrom, downFrom, downTo. The triangles are {0,1,2,0,2,3} and the colours up, up, down, down. |
| MeshStructs.ShiftedIndicesValid | Assets/Scripts/MeshStructs/TerrainMeshInformation.cs:49-52 | Appending a face's indices shifted by the current tally keeps every index below the new tally. |
| MeshStructs.TerrainMeshInformation.constructor | Assets/Scripts/MeshStructs/TerrainMeshInformation.cs:31-37 | The buffer starts empty with tally 0. |
| MeshStructs.TerrainMeshInformation.TriangleCount | Assets/Scripts/MeshStructs/TerrainMeshInformation.cs:19-23 | As written: the vertex tally divided by 3 (truncating). |
| MeshStructs.TerrainMeshInformation.TriangleTotal | Assets/Scripts/MeshStructs/TerrainMeshInformation.cs:13-23 | The number of whole triangles: exactly a third of the index list. |
| MeshStructs.TerrainMeshInformation.AddTopFaceMeshInfo | Assets/Scripts/MeshStructs/TerrainMeshInformation.cs:39-56 | Appends the face's vertices and colours. The new index list is the old one followed by the face's indices shifted by the old tally, and the tally grows by vertexCount. It keeps the buffer valid. |
| MeshStructs.QuadFaceTriangleCounts | Assets/Scripts/MeshStructs/TerrainMeshInformation.cs:19-23 | A buffer with one quad face reports 1 triangle as written, but holds 2. |
| MeshInformation.MeshInformation.VertexCount | Assets/Scripts/MeshInformation.cs:26-29 | On a constructed face, the triangle list is the fan over exactly VertexCount vertices, so every index addresses a vertex and the indices come in whole triangles. |
| MeshInformation.MeshInformation.constructor | Assets/Scripts/MeshInformation.cs:31-72 | The vertices are the lifted polygon, and the vertex count is the polygon length. The triangles form its fan, with every index below the vertex count. |
| DelauneyMesh.GenerationData.constructor | Assets/Scripts/DelauneyMeshGeneration.cs:20-44 | Stores origin, size and tile size. The extents are size · tile (no margin), and site (i, j) is (tx/2 + i·tx, ty/2 + j·ty) + offset (i, j). |
| DelauneyMesh.DelauneyMeshGeneration.Init | Assets/Scripts/DelauneyMeshGeneration.cs:92-103 | Stores the data and leaves the generator initialised. |

## Left out

- The noise, clock, random draws, animation curve, `atan2` and the Voronoi library are inputs:
  - Perlin noise (`Mathf.PerlinNoise`), `System.DateTime.Now` and `UnityEngine.Random.Range` are parameters (`noise`, `xOff`/`yOff`, `jitter`). No range is assumed for the noise or the jitter: every contract holds whatever values they return. `xOff`/`yOff` are `nat`, because `DateTime.Second` and `DateTime.Millisecond` are non-negative (VoronoiMeshGeneration.cs:277-278). With non-negative operands Dafny's Euclidean `%` agrees with C#'s truncating `%` in the noise coordinates (VoronoiMeshGeneration.cs:293-294).
  - `AnimationCurve.Evaluate`, `System.Math.Atan2` and the Voronoi library (`Delaunay.Voronoi` and its `Region` query) are parameters. The clockwise sort is proved relative to whatever `atan2` returns, and the cells relative to whatever `Region` returns.
- Single-precision rounding is not modelled: floats are reals.
- Unity plumbing is left out:
  - the upload of the merged buffer to a `Mesh` and `MeshFilter` (VoronoiMeshGeneration.cs:219-223);
  - gizmo drawing;
  - prefab instantiation, `Destroy` and the `_instantiatedTiles` list (`InstantiateAssets`, and the first half of `ClearPrevGeneration` in TileGen/TileGeneration.cs);
  - the singleton `Awake` and `Start` callbacks;
  - camera and UI scripts.
- The neighbour/wall loop in `GenerateMeshVoronoi` (VoronoiMeshGeneration.cs:193-213) reads neighbour regions and reverses them, but never uses the result. It has no effect on the mesh, so the model has no walls in the merged buffer. `WallMeshInformation` is modelled on its own.
- `VoronoiMesh.VoronoiMeshGeneration.GenerateMeshVoronoi`: the `_voronoi != null` guard is not modelled, because `Init` always builds the diagram just before the call.
- `_terrainLocs2D` is allocated in both `InstantiateTiles` and never read, so it is not modelled. `MeshGeneration.cs` is not part of this model.
- `VoronoiMesh.MergeSiteFaces` and `VoronoiMesh.FlattenSites` are the loops of `GenerateMeshVoronoi` and `Init`, moved into module-level methods; the class methods call them and assign the fields. `TileGrid.LayOutTiles` is the classify-shore-offsets sequence that both `InstantiateTiles` share. These are modelling choices that keep each proof small. `Init` computes its bounds and corner after flattening the grids rather than before; neither depends on the other.
- Negative grid sizes are not modelled. In the source a negative row or column count makes `new T[rows, columns]` throw an `OverflowException` (VoronoiMeshGeneration.cs:266-268, 355 and 381; TileGen/TileGeneration.cs:63-65). The model types the sizes as `nat`, so that error path cannot arise.
- The `Debug.LogError` call for a polygon with fewer than 3 points (TopFaceMeshInformation.cs:70, MeshInformation.cs:60) is not modelled; the empty index list it returns with is.
- The serialized configuration fields (grid size, tile size, stagger, random amount, origin, settings) can be edited in the Unity inspector between generations. The model makes them `const` fields set by the constructor, so a grid that changes size between two generations is not modelled.
- `VoronoiMesh.VoronoiMeshGeneration.Init`: the position of each cell in the flattened lists is not stated pointwise in its contract. The contract states the lists as flattenings of the grids, and `VoronoiMesh.FlattenAt` and `VoronoiMesh.SiteAt` give the index formula i · cols + j.
- `VoronoiMesh.VoronoiMeshGeneration.InstantiateTiles`: the water border of the final grid is not restated in its contract. `VoronoiMesh.FinalTypesShape` proves it for the grid the contract names.
- `VoronoiMesh.SortClockwise` is modelled as a stable insertion sort on descending angle, which is what LINQ's `OrderByDescending` promises. LINQ's own algorithm is not modelled.
- Behaviour a reader might not expect; the model follows the code:
  - Every comparison in the classifiers is a strict `>`.
  - Water sites get a top face like every other site.
  - No walls are emitted.
  - For an even grid size the kernel is not mirror-symmetric (`TileGrid.KernelAxisNotMirroredWhenEven`).
- `DelauneyMesh.DelauneyMeshGeneration.GenerateMesh` is empty in the source, and so is the model.
- The Delaunay generator's four terrain settings (water, shore, ground, mountain; DelauneyMeshGeneration.cs:48-51) are never read by the source, so the model's Delaunay generator has no settings field.

## Findings

| source | as written | input that shows it | evidently intended | confidence | as-written member | corrected member |
|---|---|---|---|---|---|---|
| Assets/Scripts/MeshStructs/TerrainMeshInformation.cs:19-23 | `triangleCount` returns the vertex tally `_count / 3` | one quad face: 4 vertices and 6 indices, so it reports 1 triangle | the number of triangles, a third of the index list (2 here) | medium, not executed (the property has no caller) | MeshStructs.TerrainMeshInformation.TriangleCount, MeshStructs.QuadFaceTriangleCounts | MeshStructs.TerrainMeshInformation.TriangleTotal |
