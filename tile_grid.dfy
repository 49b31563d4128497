/** The rows-by-columns tile grid that both generators (the Voronoi mesh generator and the
    older tile generator) build in the same way: the kernel, the first classification pass
    with its forced water border, the tile locations, the per-cell offsets, the 8-neighbour
    lookup and the in-place shore pass. The two generators differ only in the classifier
    and in the kernel's upper scale, which are parameters here. */
module TileGrid {
  import opened Geometry
  import opened Terrain

  /** The abstract value of a 2D array: row i is g[i]. */
  type Grid<T> = seq<seq<T>>

  predicate IsGrid<T>(g: Grid<T>, rows: nat, cols: nat)
  {
    |g| == rows && forall i :: 0 <= i < rows ==> |g[i]| == cols
  }

  /** The 2D array `a` holds the grid `g`. */
  ghost predicate Holds<T>(a: array2<T>, g: Grid<T>)
    reads a
  {
    IsGrid(g, a.Length0, a.Length1) &&
    forall i, j :: 0 <= i < a.Length0 && 0 <= j < a.Length1 ==> a[i, j] == g[i][j]
  }

  /** The rows-by-cols grid whose cell (i, j) is f(i, j). */
  function Build<T>(rows: nat, cols: nat, f: (int, int) -> T): (g: Grid<T>)
    ensures IsGrid(g, rows, cols)
    ensures forall i, j :: 0 <= i < rows && 0 <= j < cols ==> g[i][j] == f(i, j)
  {
    seq(rows, i => seq(cols, j => f(i, j)))
  }

  predicate OnBorder(rows: nat, cols: nat, i: int, j: int)
  {
    i == 0 || j == 0 || i == rows - 1 || j == cols - 1
  }

  /** Every border cell of the grid is water. */
  predicate BorderIsWater(g: Grid<TerrainType>, rows: nat, cols: nat)
    requires IsGrid(g, rows, cols)
  {
    forall i, j :: 0 <= i < rows && 0 <= j < cols && OnBorder(rows, cols, i, j) ==> g[i][j] == Water
  }

  // ---------------------------------------------------------------------------
  // Kernel

  const MinScale: real := 0.1

  /** Mathf.Ceil(n / 2.0f) for a non-negative n. */
  function Half(n: nat): (h: nat)
    ensures n <= 2 * h <= n + 1
  {
    (n + 1) / 2
  }

  /** The falloff along one axis: Clamp01(1 - |half - (i + 1)| / half).
      It is 1 exactly at the cell i + 1 == half. */
  function KernelAxis(n: nat, i: int): (loc: real)
    requires 0 <= i < n
    ensures 0.0 <= loc <= 1.0
    ensures loc == 1.0 <==> i + 1 == Half(n)
  {
    var half := Half(n) as real;
    var d := Abs(half - (i + 1) as real);
    var q := d / half;
    assert q >= 0.0;
    assert q == 0.0 <==> d == 0.0 by {
      assert q * half == d;
    }
    Clamp01(1.0 - q)
  }

  /** Mathf.Lerp(minScale, maxScale, curve(locX)) * Mathf.Lerp(minScale, maxScale, curve(locY)).
      Whatever the curve returns, the entry lies in [minScale^2, maxScale^2]. */
  function KernelEntry(rows: nat, cols: nat, maxScale: real, curve: real -> real, i: int, j: int): (k: real)
    requires 0 <= i < rows && 0 <= j < cols
    ensures maxScale >= MinScale ==> MinScale * MinScale <= k <= maxScale * maxScale
  {
    var x := Lerp(MinScale, maxScale, curve(KernelAxis(rows, i)));
    var y := Lerp(MinScale, maxScale, curve(KernelAxis(cols, j)));
    if maxScale >= MinScale then
      ProductBounds(x, y, MinScale, maxScale);
      x * y
    else
      x * y
  }

  /** Two factors in [lo, hi], with lo non-negative, have a product in [lo^2, hi^2]. */
  lemma ProductBounds(x: real, y: real, lo: real, hi: real)
    requires 0.0 <= lo <= x <= hi && lo <= y <= hi
    ensures lo * lo <= x * y <= hi * hi
  {
    MulNonNegative(x - lo, y);
    MulNonNegative(lo, y - lo);
    MulNonNegative(hi - x, y);
    MulNonNegative(hi, hi - y);
    assert x * y >= lo * y >= lo * lo;
    assert x * y <= hi * y <= hi * hi;
  }

  function KernelGrid(rows: nat, cols: nat, maxScale: real, curve: real -> real): (g: Grid<real>)
    ensures IsGrid(g, rows, cols)
  {
    Build(rows, cols, (i, j) => if 0 <= i < rows && 0 <= j < cols then KernelEntry(rows, cols, maxScale, curve, i, j) else 0.0)
  }

  /** For an odd size the falloff is mirror-symmetric about the middle cell. */
  lemma KernelAxisMirroredWhenOdd(n: nat, i: int)
    requires n % 2 == 1 && 0 <= i < n
    ensures KernelAxis(n, i) == KernelAxis(n, n - 1 - i)
  {
    assert 2 * Half(n) == n + 1;
    var half := Half(n) as real;
    assert Abs(half - (i + 1) as real) == Abs(half - (n - i) as real);
  }

  /** For an even size it is not: with four rows the first row sits at 0.5 and the last at 0. */
  lemma KernelAxisNotMirroredWhenEven()
    ensures KernelAxis(4, 0) == 0.5
    ensures KernelAxis(4, 3) == 0.0
  {
  }

  // ---------------------------------------------------------------------------
  // First classification pass

  /** The coordinate on the unit noise texture, ((i + off) mod n) / n, always in [0, 1). */
  function SampleCoord(i: nat, off: nat, n: nat): (r: real)
    requires n > 0
    ensures 0.0 <= r < 1.0
  {
    var k := (i + off) % n;
    assert (k as real) < (n as real);
    (k as real) / (n as real)
  }

  /** The noise sampled for cell (i, j), modulated by the kernel value k: noise * (100 * k). */
  function Intensity(noise: (real, real) -> real, k: real, rows: nat, cols: nat, xOff: nat, yOff: nat, i: nat, j: nat): (r: real)
    requires rows > 0 && cols > 0
    ensures k > 0.0 ==> (r > 0.0 <==> noise(SampleCoord(i, xOff, rows), SampleCoord(j, yOff, cols)) > 0.0)
    ensures k == 0.0 ==> r == 0.0
  {
    var n := noise(SampleCoord(i, xOff, rows), SampleCoord(j, yOff, cols));
    assert k > 0.0 ==> (n * (100.0 * k) > 0.0 <==> n > 0.0) by {
      if k > 0.0 {
        if n > 0.0 {
          assert n * (100.0 * k) > 0.0 * (100.0 * k);
        } else {
          MulNonNegative(-n, 100.0 * k);
        }
      }
    }
    n * (100.0 * k)
  }

  predicate Interior(rows: nat, cols: nat, i: int, j: int)
  {
    i > 0 && j > 0 && i < rows - 1 && j < cols - 1
  }

  /** One cell of the first pass: interior cells are classified from their intensity,
      every other cell is forced to water. */
  function FirstPassCell(bands: real -> TerrainType, noise: (real, real) -> real, kernel: Grid<real>,
                         rows: nat, cols: nat, xOff: nat, yOff: nat, i: int, j: int): (t: TerrainType)
    requires IsGrid(kernel, rows, cols) && 0 <= i < rows && 0 <= j < cols
    ensures OnBorder(rows, cols, i, j) ==> t == Water
    ensures t == Water || t == bands(Intensity(noise, kernel[i][j], rows, cols, xOff, yOff, i, j))
  {
    if Interior(rows, cols, i, j) then bands(Intensity(noise, kernel[i][j], rows, cols, xOff, yOff, i, j))
    else Water
  }

  function FirstPass(bands: real -> TerrainType, noise: (real, real) -> real, kernel: Grid<real>,
                     rows: nat, cols: nat, xOff: nat, yOff: nat): (g: Grid<TerrainType>)
    requires IsGrid(kernel, rows, cols)
    ensures IsGrid(g, rows, cols)
  {
    Build(rows, cols, (i, j) =>
      if 0 <= i < rows && 0 <= j < cols then FirstPassCell(bands, noise, kernel, rows, cols, xOff, yOff, i, j) else Water)
  }

  /** After the first pass the border is water, and no cell holds a category the classifier
      cannot produce. */
  lemma FirstPassShape(bands: real -> TerrainType, noise: (real, real) -> real, kernel: Grid<real>,
                       rows: nat, cols: nat, xOff: nat, yOff: nat, t: TerrainType)
    requires IsGrid(kernel, rows, cols)
    requires t != Water && forall x :: bands(x) != t
    ensures BorderIsWater(FirstPass(bands, noise, kernel, rows, cols, xOff, yOff), rows, cols)
    ensures forall i, j :: 0 <= i < rows && 0 <= j < cols ==> FirstPass(bands, noise, kernel, rows, cols, xOff, yOff)[i][j] != t
  {
  }

  // ---------------------------------------------------------------------------
  // Tile locations and position offsets

  /** The tile's centred location: (-(rows-1)/2 * tx + tx * i, 0, -(cols-1)/2 * ty + ty * j),
      shifted in z by half a tile width on odd rows when staggering is on. */
  function TileLoc(rows: nat, cols: nat, tileSize: Vec2, stagger: bool, i: int, j: int): (v: Vec3)
    ensures v.y == 0.0
    ensures v.x == -(rows as real - 1.0) / 2.0 * tileSize.x + tileSize.x * i as real
    ensures !stagger || i % 2 == 0 ==> v.z == -(cols as real - 1.0) / 2.0 * tileSize.y + tileSize.y * j as real
    ensures stagger && i % 2 == 1 ==> v.z == -(cols as real - 1.0) / 2.0 * tileSize.y + tileSize.y * j as real + 0.5 * tileSize.x
  {
    var minusX := (rows as real - 1.0) / 2.0 * tileSize.x;
    var minusZ := (cols as real - 1.0) / 2.0 * tileSize.y;
    var columnOffset := if stagger then Vec3(0.0, 0.0, (i % 2) as real * 0.5 * tileSize.x) else Zero3;
    Add3(Vec3(-minusX + tileSize.x * i as real, 0.0, -minusZ + tileSize.y * j as real), columnOffset)
  }

  function TileLocGrid(rows: nat, cols: nat, tileSize: Vec2, stagger: bool): (g: Grid<Vec3>)
    ensures IsGrid(g, rows, cols)
  {
    Build(rows, cols, (i, j) => TileLoc(rows, cols, tileSize, stagger, i, j))
  }

  /** The tile locations are centred on the origin: mirrored rows have opposite x,
      mirrored columns opposite z when there is no stagger, neighbours are one tile apart,
      and every tile lies in the plane y = 0. */
  lemma TileLocsCentred(rows: nat, cols: nat, tileSize: Vec2, stagger: bool, i: int, j: int)
    requires 0 <= i < rows && 0 <= j < cols
    ensures TileLoc(rows, cols, tileSize, stagger, i, j).x + TileLoc(rows, cols, tileSize, stagger, rows - 1 - i, j).x == 0.0
    ensures !stagger ==> TileLoc(rows, cols, tileSize, stagger, i, j).z + TileLoc(rows, cols, tileSize, stagger, i, cols - 1 - j).z == 0.0
    ensures TileLoc(rows, cols, tileSize, stagger, i + 1, j).x - TileLoc(rows, cols, tileSize, stagger, i, j).x == tileSize.x
    ensures TileLoc(rows, cols, tileSize, stagger, i, j).y == 0.0
  {
    MirroredSum(rows as real, i as real, (rows - 1 - i) as real, tileSize.x);
    if !stagger {
      MirroredSum(cols as real, j as real, (cols - 1 - j) as real, tileSize.y);
    }
    assert tileSize.x * (i + 1) as real == tileSize.x * i as real + tileSize.x;
  }

  /** Two positions a and b with a + b == n - 1, each centred by -(n - 1)/2 tiles, cancel. */
  lemma MirroredSum(n: real, a: real, b: real, t: real)
    requires a + b == n - 1.0
    ensures (-(n - 1.0) / 2.0 * t + t * a) + (-(n - 1.0) / 2.0 * t + t * b) == 0.0
  {
    assert t * a + t * b == t * (n - 1.0);
  }

  /** One cell's offset: randomAmt * jitter(i, j), plus half a unit in y on odd rows when
      staggering is on. The jitter stands for the two Random.Range(-0.5f, 0.5f) draws. */
  function Offset(stagger: bool, randomAmt: real, jitter: (int, int) -> Vec2, i: int, j: int): (r: Vec2)
    ensures !stagger ==> r == Scale2(randomAmt, jitter(i, j))
    ensures randomAmt == 0.0 ==> r == (if stagger then Vec2(0.0, (i % 2) as real * 0.5) else Zero2)
  {
    var columnOffset := if stagger then Vec2(0.0, (i % 2) as real * 0.5) else Zero2;
    Add2(Add2(Zero2, Scale2(randomAmt, jitter(i, j))), columnOffset)
  }

  function OffsetGrid(rows: nat, cols: nat, stagger: bool, randomAmt: real, jitter: (int, int) -> Vec2): (g: Grid<Vec2>)
    ensures IsGrid(g, rows, cols)
  {
    Build(rows, cols, (i, j) => Offset(stagger, randomAmt, jitter, i, j))
  }

  /** With randomAmt = 0 the offsets do not depend on the random draws at all: only the
      stagger remains. */
  lemma {:induction false} OffsetsDeterministicWithoutJitter(rows: nat, cols: nat, stagger: bool, jitter1: (int, int) -> Vec2, jitter2: (int, int) -> Vec2)
    ensures OffsetGrid(rows, cols, stagger, 0.0, jitter1) == OffsetGrid(rows, cols, stagger, 0.0, jitter2)
    ensures forall i, j :: 0 <= i < rows && 0 <= j < cols ==>
      OffsetGrid(rows, cols, stagger, 0.0, jitter1)[i][j] == (if stagger then Vec2(0.0, (i % 2) as real * 0.5) else Zero2)
  {
    var g1 := OffsetGrid(rows, cols, stagger, 0.0, jitter1);
    var g2 := OffsetGrid(rows, cols, stagger, 0.0, jitter2);
    forall i | 0 <= i < rows
      ensures g1[i] == g2[i]
    {
      forall j | 0 <= j < cols
        ensures g1[i][j] == g2[i][j]
      {
        assert g1[i][j] == Offset(stagger, 0.0, jitter1, i, j);
        assert g2[i][j] == Offset(stagger, 0.0, jitter2, i, j);
      }
    }
  }

  /** The site of cell (i, j): half a tile in, plus i and j whole tiles, plus the cell's offset. */
  function SitePosition(tileSize: Vec2, offset: Vec2, i: int, j: int): (r: Vec2)
    ensures r.x == (i as real + 0.5) * tileSize.x + offset.x
    ensures r.y == (j as real + 0.5) * tileSize.y + offset.y
  {
    Add2(Add2(Vec2(tileSize.x / 2.0, tileSize.y / 2.0), Vec2(i as real * tileSize.x, j as real * tileSize.y)), offset)
  }

  /** Sites sit inside their own tile when the offset stays within half a tile. */
  lemma SiteInsideTile(tileSize: Vec2, offset: Vec2, i: int, j: int)
    requires tileSize.x > 0.0 && tileSize.y > 0.0
    requires -tileSize.x / 2.0 <= offset.x < tileSize.x / 2.0 && -tileSize.y / 2.0 <= offset.y < tileSize.y / 2.0
    ensures i as real * tileSize.x <= SitePosition(tileSize, offset, i, j).x < (i + 1) as real * tileSize.x
    ensures j as real * tileSize.y <= SitePosition(tileSize, offset, i, j).y < (j + 1) as real * tileSize.y
  {
    assert (i + 1) as real * tileSize.x == i as real * tileSize.x + tileSize.x;
    assert (j + 1) as real * tileSize.y == j as real * tileSize.y + tileSize.y;
  }

  // ---------------------------------------------------------------------------
  // Neighbours and the shore pass

  /** (a, b) is one of the up to eight in-bounds cells around (i, j), not (i, j) itself;
      there is no wrap-around. */
  predicate IsNeighbor(rows: nat, cols: nat, i: int, j: int, a: int, b: int)
  {
    0 <= a < rows && 0 <= b < cols && i - 1 <= a <= i + 1 && j - 1 <= b <= j + 1 && (a != i || b != j)
  }

  /** The set of categories found among the 8-connected neighbours of (i, j). */
  function NeighborTypes(g: Grid<TerrainType>, rows: nat, cols: nat, i: int, j: int): set<TerrainType>
    requires IsGrid(g, rows, cols)
  {
    set a, b | i - 1 <= a <= i + 1 && j - 1 <= b <= j + 1 && IsNeighbor(rows, cols, i, j, a, b) :: g[a][b]
  }

  /** A corner cell sees at most three neighbours. */
  lemma CornerHasThreeNeighbors(g: Grid<TerrainType>, rows: nat, cols: nat)
    requires IsGrid(g, rows, cols) && rows >= 2 && cols >= 2
    ensures NeighborTypes(g, rows, cols, 0, 0) == {g[0][1], g[1][0], g[1][1]}
    ensures |NeighborTypes(g, rows, cols, 0, 0)| <= 3
  {
    var s := NeighborTypes(g, rows, cols, 0, 0);
    assert IsNeighbor(rows, cols, 0, 0, 0, 1) && IsNeighbor(rows, cols, 0, 0, 1, 0) && IsNeighbor(rows, cols, 0, 0, 1, 1);
    assert s == {g[0][1], g[1][0], g[1][1]};
    SetOfThree(g[0][1], g[1][0], g[1][1]);
  }

  lemma SetOfThree<T>(x: T, y: T, z: T)
    ensures |{x, y, z}| <= 3
  {
    assert {x, y, z} == {x} + {y} + {z};
  }

  /** Some in-bounds 8-neighbour of (i, j) is water. */
  ghost predicate HasWaterNeighbor(g: Grid<TerrainType>, rows: nat, cols: nat, i: int, j: int)
    requires IsGrid(g, rows, cols)
  {
    exists a, b :: IsNeighbor(rows, cols, i, j, a, b) && g[a][b] == Water
  }

  lemma WaterInNeighborTypes(g: Grid<TerrainType>, rows: nat, cols: nat, i: int, j: int)
    requires IsGrid(g, rows, cols)
    ensures Water in NeighborTypes(g, rows, cols, i, j) <==> HasWaterNeighbor(g, rows, cols, i, j)
  {
    if HasWaterNeighbor(g, rows, cols, i, j) {
      var a, b :| IsNeighbor(rows, cols, i, j, a, b) && g[a][b] == Water;
      assert g[a][b] in NeighborTypes(g, rows, cols, i, j);
    }
  }

  /** Two grids with water in the same cells agree on whether (i, j) has a water neighbour. */
  lemma SameWaterSameNeighbors(g1: Grid<TerrainType>, g2: Grid<TerrainType>, rows: nat, cols: nat, i: int, j: int)
    requires IsGrid(g1, rows, cols) && IsGrid(g2, rows, cols)
    requires forall a, b :: 0 <= a < rows && 0 <= b < cols ==> (g1[a][b] == Water <==> g2[a][b] == Water)
    ensures Water in NeighborTypes(g1, rows, cols, i, j) <==> Water in NeighborTypes(g2, rows, cols, i, j)
  {
    WaterInNeighborTypes(g1, rows, cols, i, j);
    WaterInNeighborTypes(g2, rows, cols, i, j);
  }

  /** One cell of the shore pass: ground next to water becomes shore. */
  function ShoreCell(g: Grid<TerrainType>, rows: nat, cols: nat, i: int, j: int): (t: TerrainType)
    requires IsGrid(g, rows, cols) && 0 <= i < rows && 0 <= j < cols
    ensures t == Water <==> g[i][j] == Water
    ensures t != g[i][j] ==> g[i][j] == Ground && t == Shore
    ensures g[i][j] == Ground && Water in NeighborTypes(g, rows, cols, i, j) ==> t == Shore
  {
    if g[i][j] == Ground && Water in NeighborTypes(g, rows, cols, i, j) then Shore else g[i][j]
  }

  /** The shore pass as a simultaneous update; it only runs on grids larger than 8 by 8. */
  function ShorePass(g: Grid<TerrainType>, rows: nat, cols: nat): (r: Grid<TerrainType>)
    requires IsGrid(g, rows, cols)
    ensures IsGrid(r, rows, cols)
  {
    if rows > 8 && cols > 8 then
      Build(rows, cols, (i, j) => if 0 <= i < rows && 0 <= j < cols then ShoreCell(g, rows, cols, i, j) else Water)
    else g
  }

  /** The shore pass changes exactly the ground cells with an in-bounds water neighbour,
      into shore, and only on grids larger than 8 by 8; water stays water and nothing
      becomes water. */
  lemma ShorePassAt(g: Grid<TerrainType>, rows: nat, cols: nat, i: int, j: int)
    requires IsGrid(g, rows, cols) && 0 <= i < rows && 0 <= j < cols
    ensures ShorePass(g, rows, cols)[i][j] ==
      if rows > 8 && cols > 8 && g[i][j] == Ground && HasWaterNeighbor(g, rows, cols, i, j) then Shore else g[i][j]
    ensures ShorePass(g, rows, cols)[i][j] == Water <==> g[i][j] == Water
  {
    WaterInNeighborTypes(g, rows, cols, i, j);
  }

  /** Applying the shore pass twice gives the same grid as applying it once. */
  lemma ShorePassIdempotent(g: Grid<TerrainType>, rows: nat, cols: nat)
    requires IsGrid(g, rows, cols)
    ensures ShorePass(ShorePass(g, rows, cols), rows, cols) == ShorePass(g, rows, cols)
  {
    var h := ShorePass(g, rows, cols);
    if rows > 8 && cols > 8 {
      forall a, b | 0 <= a < rows && 0 <= b < cols
        ensures h[a][b] == Water <==> g[a][b] == Water
      {
        ShorePassAt(g, rows, cols, a, b);
      }
      var hh := ShorePass(h, rows, cols);
      forall i | 0 <= i < rows
        ensures hh[i] == h[i]
      {
        forall j | 0 <= j < cols
          ensures hh[i][j] == h[i][j]
        {
          SameWaterSameNeighbors(h, g, rows, cols, i, j);
        }
      }
    }
  }

  /** A water border survives the shore pass. */
  lemma ShorePassKeepsBorder(g: Grid<TerrainType>, rows: nat, cols: nat)
    requires IsGrid(g, rows, cols) && BorderIsWater(g, rows, cols)
    ensures BorderIsWater(ShorePass(g, rows, cols), rows, cols)
  {
    forall i, j | 0 <= i < rows && 0 <= j < cols && OnBorder(rows, cols, i, j)
      ensures ShorePass(g, rows, cols)[i][j] == Water
    {
      ShorePassAt(g, rows, cols, i, j);
    }
  }

  // ---------------------------------------------------------------------------
  // The loops that fill the arrays

  /** Fills the kernel, one entry per cell. */
  method GenerateKernel(rows: nat, cols: nat, maxScale: real, curve: real -> real) returns (kernel: array2<real>)
    ensures fresh(kernel)
    ensures kernel.Length0 == rows && kernel.Length1 == cols
    ensures Holds(kernel, KernelGrid(rows, cols, maxScale, curve))
  {
    kernel := new real[rows, cols];
    for i := 0 to rows
      invariant forall a, b :: 0 <= a < i && 0 <= b < cols ==> kernel[a, b] == KernelEntry(rows, cols, maxScale, curve, a, b)
    {
      for j := 0 to cols
        invariant forall a, b :: 0 <= b < cols && (0 <= a < i || (a == i && b < j)) ==> kernel[a, b] == KernelEntry(rows, cols, maxScale, curve, a, b)
      {
        var locX := KernelAxis(rows, i);
        var locY := KernelAxis(cols, j);
        var scaleX := Lerp(MinScale, maxScale, curve(locX));
        var scaleY := Lerp(MinScale, maxScale, curve(locY));
        assert scaleX * scaleY == KernelEntry(rows, cols, maxScale, curve, i, j);
        kernel[i, j] := scaleX * scaleY;
      }
    }
  }

  /** The first pass: fills the tile locations and the categories in one nested loop,
      classifying each interior cell from the kernel-modulated noise with `bands` and
      forcing every border cell to water. */
  method ClassifyTiles(rows: nat, cols: nat, tileSize: Vec2, stagger: bool, kernel: array2<real>, ghost kgrid: Grid<real>,
                       noise: (real, real) -> real, xOff: nat, yOff: nat, bands: real -> TerrainType)
    returns (tileLocs: array2<Vec3>, types: array2<TerrainType>)
    requires kernel.Length0 == rows && kernel.Length1 == cols && Holds(kernel, kgrid)
    ensures fresh(tileLocs) && fresh(types)
    ensures tileLocs.Length0 == rows && tileLocs.Length1 == cols && types.Length0 == rows && types.Length1 == cols
    ensures Holds(tileLocs, TileLocGrid(rows, cols, tileSize, stagger))
    ensures Holds(types, FirstPass(bands, noise, kgrid, rows, cols, xOff, yOff))
  {
    tileLocs := new Vec3[rows, cols];
    types := new TerrainType[rows, cols];
    for i := 0 to rows
      invariant forall a, b :: 0 <= a < i && 0 <= b < cols ==>
        tileLocs[a, b] == TileLoc(rows, cols, tileSize, stagger, a, b) &&
        types[a, b] == FirstPassCell(bands, noise, kgrid, rows, cols, xOff, yOff, a, b)
    {
      for j := 0 to cols
        invariant forall a, b :: 0 <= b < cols && (0 <= a < i || (a == i && b < j)) ==>
          tileLocs[a, b] == TileLoc(rows, cols, tileSize, stagger, a, b) &&
          types[a, b] == FirstPassCell(bands, noise, kgrid, rows, cols, xOff, yOff, a, b)
      {
        tileLocs[i, j] := TileLoc(rows, cols, tileSize, stagger, i, j);
        var cell: TerrainType;
        if i > 0 && j > 0 && i < rows - 1 && j < cols - 1 {
          var perlin := noise(SampleCoord(i, xOff, rows), SampleCoord(j, yOff, cols));
          perlin := perlin * (100.0 * kernel[i, j]);
          assert perlin == Intensity(noise, kgrid[i][j], rows, cols, xOff, yOff, i, j);
          cell := bands(perlin);
        } else {
          cell := Water;
        }
        assert cell == FirstPassCell(bands, noise, kgrid, rows, cols, xOff, yOff, i, j);
        types[i, j] := cell;
      }
    }
  }

  /** Fills the per-cell position offsets. The category grid is passed in but not used. */
  method Generate2DOffsets(rows: nat, cols: nat, stagger: bool, randomAmt: real, jitter: (int, int) -> Vec2,
                           types: array2<TerrainType>)
    returns (ret: array2<Vec2>)
    ensures fresh(ret)
    ensures ret.Length0 == rows && ret.Length1 == cols
    ensures Holds(ret, OffsetGrid(rows, cols, stagger, randomAmt, jitter))
  {
    ret := new Vec2[rows, cols];
    for i := 0 to rows
      invariant forall a, b :: 0 <= a < i && 0 <= b < cols ==> ret[a, b] == Offset(stagger, randomAmt, jitter, a, b)
    {
      for j := 0 to cols
        invariant forall a, b :: 0 <= b < cols && (0 <= a < i || (a == i && b < j)) ==> ret[a, b] == Offset(stagger, randomAmt, jitter, a, b)
      {
        var posn := Zero2;
        var columnOffset := if stagger then Vec2(0.0, (i % 2) as real * 0.5) else Zero2;
        var rand := jitter(i, j);
        ret[i, j] := Add2(Add2(posn, Scale2(randomAmt, rand)), columnOffset);
      }
    }
  }

  /** Collects the categories of the in-bounds 8-neighbours of (i, j) one Add at a time:
      exactly NeighborTypes of the grid the array holds. */
  method GetNeighborTypes(types: array2<TerrainType>, ghost g: Grid<TerrainType>, i: int, j: int)
    returns (ret: set<TerrainType>)
    requires Holds(types, g)
    requires 0 <= i < types.Length0 && 0 <= j < types.Length1
    ensures ret == NeighborTypes(g, types.Length0, types.Length1, i, j)
  {
    ret := {};
    var notTopRow := i > 0;
    var notBottomRow := i < types.Length0 - 1;
    var notLeftEdgeCol := j > 0;
    var notRightEdgeCol := j < types.Length1 - 1;

    if notTopRow {
      ret := ret + {types[i - 1, j]};
      if notLeftEdgeCol {
        ret := ret + {types[i - 1, j - 1]};
      }
      if notRightEdgeCol {
        ret := ret + {types[i - 1, j + 1]};
      }
    }
    if notLeftEdgeCol {
      ret := ret + {types[i, j - 1]};
    }
    if notRightEdgeCol {
      ret := ret + {types[i, j + 1]};
    }
    if notBottomRow {
      ret := ret + {types[i + 1, j]};
      if notLeftEdgeCol {
        ret := ret + {types[i + 1, j - 1]};
      }
      if notRightEdgeCol {
        ret := ret + {types[i + 1, j + 1]};
      }
    }

    var rows, cols := types.Length0, types.Length1;
    forall t | t in NeighborTypes(g, rows, cols, i, j)
      ensures t in ret
    {
      var a, b :| i - 1 <= a <= i + 1 && j - 1 <= b <= j + 1 && IsNeighbor(rows, cols, i, j, a, b) && g[a][b] == t;
      assert types[a, b] == t;
    }
  }

  /** The shore pass, run in place as the source runs it: each ground cell is checked
      against the current array, which may already hold shore cells from earlier steps.
      Because the pass never creates or removes water, the result is the simultaneous
      ShorePass of the grid it started from. */
  method ApplyShorePass(types: array2<TerrainType>, ghost g: Grid<TerrainType>)
    requires Holds(types, g)
    modifies types
    ensures Holds(types, ShorePass(g, types.Length0, types.Length1))
  {
    var rows, cols := types.Length0, types.Length1;
    if rows > 8 && cols > 8 {
      ghost var cur := g;
      for i := 0 to rows
        invariant Holds(types, cur)
        invariant forall a, b :: 0 <= a < rows && 0 <= b < cols ==>
          cur[a][b] == if a < i then ShoreCell(g, rows, cols, a, b) else g[a][b]
      {
        for j := 0 to cols
          invariant Holds(types, cur)
          invariant forall a, b :: 0 <= a < rows && 0 <= b < cols ==>
            cur[a][b] == if a < i || (a == i && b < j) then ShoreCell(g, rows, cols, a, b) else g[a][b]
        {
          if types[i, j] == Ground {
            forall a, b | 0 <= a < rows && 0 <= b < cols
              ensures cur[a][b] == Water <==> g[a][b] == Water
            {
              ShorePassAt(g, rows, cols, a, b);
            }
            SameWaterSameNeighbors(cur, g, rows, cols, i, j);
            var neighbors := GetNeighborTypes(types, cur, i, j);
            if Water in neighbors {
              types[i, j] := Shore;
              cur := cur[i := cur[i][j := Shore]];
            }
          }
        }
      }
    }
  }

  /** What both generators' InstantiateTiles compute before handing the sites on: the tile
      locations, the classified grid after the shore pass, and the site offsets. */
  method LayOutTiles(rows: nat, cols: nat, tileSize: Vec2, stagger: bool, kernel: array2<real>, ghost kgrid: Grid<real>,
                     noise: (real, real) -> real, xOff: nat, yOff: nat, bands: real -> TerrainType, randomAmt: real, jitter: (int, int) -> Vec2)
    returns (tileLocs: array2<Vec3>, types: array2<TerrainType>, offsets: array2<Vec2>)
    requires kernel.Length0 == rows && kernel.Length1 == cols && Holds(kernel, kgrid)
    ensures fresh(tileLocs) && fresh(types)
    ensures tileLocs.Length0 == rows && tileLocs.Length1 == cols && types.Length0 == rows && types.Length1 == cols
    ensures Holds(tileLocs, TileLocGrid(rows, cols, tileSize, stagger))
    ensures Holds(types, ShorePass(FirstPass(bands, noise, kgrid, rows, cols, xOff, yOff), rows, cols))
    ensures fresh(offsets) && offsets.Length0 == rows && offsets.Length1 == cols
    ensures Holds(offsets, OffsetGrid(rows, cols, stagger, randomAmt, jitter))
  {
    tileLocs, types := ClassifyTiles(rows, cols, tileSize, stagger, kernel, kgrid, noise, xOff, yOff, bands);
    ghost var locGrid := TileLocGrid(rows, cols, tileSize, stagger);
    ApplyShorePass(types, FirstPass(bands, noise, kgrid, rows, cols, xOff, yOff));
    offsets := Generate2DOffsets(rows, cols, stagger, randomAmt, jitter, types);
    assert Holds(tileLocs, locGrid);
  }
}
