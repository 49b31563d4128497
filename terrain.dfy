/** The terrain categories with the integer values the classifiers compare against,
    and the per-category display settings. */
module Terrain {
  import opened Geometry

  /** Declared in ascending order, as in the enum. */
  datatype TerrainType = Water | Shore | Ground | LowMountain | Mountain

  /** The enum's integer value: WATER = 0, SHORE = 1 (implicit successor of 0),
      GROUND = 7, LOWMOUNTAIN = 30, MOUNTAIN = 45. */
  function Value(t: TerrainType): int
  {
    match t
    case Water => 0
    case Shore => 1
    case Ground => 7
    case LowMountain => 30
    case Mountain => 45
  }

  /** Position of a category in the declaration order. */
  function Rank(t: TerrainType): nat
  {
    match t
    case Water => 0
    case Shore => 1
    case Ground => 2
    case LowMountain => 3
    case Mountain => 4
  }

  /** Comparing categories (as the enum's `<` does, on the integer values) agrees with
      their declaration order, so "taller" means "declared later". */
  lemma ValueFollowsDeclarationOrder(a: TerrainType, b: TerrainType)
    ensures Value(a) < Value(b) <==> Rank(a) < Rank(b)
    ensures Value(a) == Value(b) <==> a == b
  {
  }

  /** Elevation and colour of one category. The `type` field is stored but never read. */
  datatype TerrainSetting = TerrainSetting(kind: TerrainType, yValue: real, color: Color)

  /** The five settings the Voronoi generator is configured with. */
  datatype TerrainSettings = TerrainSettings(
    water: TerrainSetting,
    shore: TerrainSetting,
    ground: TerrainSetting,
    lowMount: TerrainSetting,
    highMount: TerrainSetting)
}
