/** The bit sets the planner reads and writes: the path classification, the
    terrain classes of the polygon filter, the world's liquid data, the mesh
    library's status word and its straight-path corner flags.
    The numeric values are declared in headers that are not part of this
    model; they are written out here with the headers' values. */
module Flags {

  /** PathType: a classification word built from single-bit tags. */
  type PathType = bv8

  const PATHFIND_BLANK: PathType := 0x00
  const PATHFIND_NORMAL: PathType := 0x01
  const PATHFIND_SHORTCUT: PathType := 0x02
  const PATHFIND_INCOMPLETE: PathType := 0x04
  const PATHFIND_NOPATH: PathType := 0x08
  const PATHFIND_NOT_USING_PATH: PathType := 0x10
  const PATHFIND_SHORT: PathType := 0x20
  const PATHFIND_FARFROMPOLY_START: PathType := 0x40
  const PATHFIND_FARFROMPOLY_END: PathType := 0x80
  const PATHFIND_FARFROMPOLY: PathType := 0xC0

  /** NavTerrain: the terrain classes of a mesh polygon, and the include and
      exclude masks of the polygon filter (16 bits wide in the mesh library). */
  type NavTerrain = bv16

  const NAV_EMPTY: NavTerrain := 0x00
  const NAV_GROUND: NavTerrain := 0x01
  const NAV_MAGMA: NavTerrain := 0x02
  const NAV_SLIME: NavTerrain := 0x04
  const NAV_WATER: NavTerrain := 0x08

  /** Liquid status bits reported by the world for a position. */
  const LIQUID_MAP_NO_WATER: bv32 := 0x00
  const LIQUID_MAP_ABOVE_WATER: bv32 := 0x01
  const LIQUID_MAP_WATER_WALK: bv32 := 0x02
  const LIQUID_MAP_IN_WATER: bv32 := 0x04
  const LIQUID_MAP_UNDER_WATER: bv32 := 0x08
  /** In or under water. */
  const MAP_LIQUID_STATUS_SWIMMING: bv32 := LIQUID_MAP_IN_WATER | LIQUID_MAP_UNDER_WATER
  /** Touching a liquid: swimming in it or walking on it. */
  const MAP_LIQUID_STATUS_IN_CONTACT: bv32 := MAP_LIQUID_STATUS_SWIMMING | LIQUID_MAP_WATER_WALK

  /** Liquid type flags reported by the world for a position. */
  const MAP_LIQUID_TYPE_NO_WATER: bv32 := 0x00
  const MAP_LIQUID_TYPE_WATER: bv32 := 0x01
  const MAP_LIQUID_TYPE_OCEAN: bv32 := 0x02
  const MAP_LIQUID_TYPE_MAGMA: bv32 := 0x04
  const MAP_LIQUID_TYPE_SLIME: bv32 := 0x08

  /** What the world's liquid query answers for one position. */
  datatype LiquidData = LiquidData(status: bv32, flags: bv32)

  /** The mesh library's status word. */
  type Status = bv32

  const DT_FAILURE: Status := 0x8000_0000
  const DT_SUCCESS: Status := 0x4000_0000
  /** Detail bit the planner adds when a smoothing step is too steep. */
  const DT_SLOPE_TOO_STEEP: Status := 0x80

  predicate Failed(s: Status) { s & DT_FAILURE != 0 }
  predicate Succeeded(s: Status) { s & DT_SUCCESS != 0 }
  predicate SlopeTooSteep(s: Status) { s & DT_SLOPE_TOO_STEEP != 0 }

  /** Flags of one corner of a straight path. */
  type CornerFlags = bv8

  const DT_STRAIGHTPATH_START: CornerFlags := 0x01
  const DT_STRAIGHTPATH_END: CornerFlags := 0x02
  const DT_STRAIGHTPATH_OFFMESH_CONNECTION: CornerFlags := 0x04

  /** The terrain class of a position, from the liquid found there
      (GetNavTerrain). The switch matches the liquid type exactly, so a
      combination of liquid types falls into the default case. */
  function GetNavTerrain(liquid: LiquidData): (t: NavTerrain)
    ensures t == NAV_GROUND || t == NAV_WATER || t == NAV_MAGMA
    ensures liquid.status == LIQUID_MAP_NO_WATER ==> t == NAV_GROUND
    ensures t == NAV_WATER <==> liquid.status != LIQUID_MAP_NO_WATER
                                && liquid.flags in {MAP_LIQUID_TYPE_WATER, MAP_LIQUID_TYPE_OCEAN}
    ensures t == NAV_MAGMA <==> liquid.status != LIQUID_MAP_NO_WATER
                                && liquid.flags in {MAP_LIQUID_TYPE_MAGMA, MAP_LIQUID_TYPE_SLIME}
  {
    if liquid.status == LIQUID_MAP_NO_WATER then NAV_GROUND
    else if liquid.flags == MAP_LIQUID_TYPE_WATER || liquid.flags == MAP_LIQUID_TYPE_OCEAN then NAV_WATER
    else if liquid.flags == MAP_LIQUID_TYPE_MAGMA || liquid.flags == MAP_LIQUID_TYPE_SLIME then NAV_MAGMA
    else NAV_GROUND
  }

  /** The path type with the far-from-polygon tags ORed in (AddFarFromPolyFlags). */
  function WithFarFromPolyFlags(t: PathType, startFar: bool, endFar: bool): (r: PathType)
    ensures r & t == t                               // nothing is cleared
    ensures r & !(t | PATHFIND_FARFROMPOLY) == 0     // only the two far tags are added
    ensures (r & PATHFIND_FARFROMPOLY_START != 0) <==> (startFar || t & PATHFIND_FARFROMPOLY_START != 0)
    ensures (r & PATHFIND_FARFROMPOLY_END != 0) <==> (endFar || t & PATHFIND_FARFROMPOLY_END != 0)
  {
    var s := if startFar then t | PATHFIND_FARFROMPOLY_START else t;
    if endFar then s | PATHFIND_FARFROMPOLY_END else s
  }

  /** Adding the far-from-polygon tags twice is the same as adding them once. */
  lemma FarFromPolyFlagsIdempotent(t: PathType, startFar: bool, endFar: bool)
    ensures WithFarFromPolyFlags(WithFarFromPolyFlags(t, startFar, endFar), startFar, endFar)
            == WithFarFromPolyFlags(t, startFar, endFar)
  {
  }

  /** The tags of a path type other than "not using path"; slope checks apply
      only when this is non-empty. */
  predicate SlopeCheckApplies(slopeCheck: bool, t: PathType)
  {
    slopeCheck && t & !PATHFIND_NOT_USING_PATH != 0
  }
}
