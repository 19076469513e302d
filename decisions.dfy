/** The decisions the planner takes, as functions of what it has found:
    the polygon filter, when to fall back to a shortcut, how much of the old
    corridor to keep, what to do with the points the mesh returned, and
    where a path shortened to a distance from a target ends. */
module Decisions {
  import opened Geometry
  import opened Flags
  import opened Corridor
  import opened Services
  import opened Steering

  // ---------------------------------------------------------------------
  // Filters

  /** The terrain an agent may walk on by its own abilities (CreateFilter):
      a creature the ground when it can walk and water and magma when it can
      enter water; anything else is taken to be a player and gets all three. */
  function BaseIncludeFlags(agent: Agent): (f: NavTerrain)
    ensures agent.kind != CreatureUnit ==> f == NAV_GROUND | NAV_WATER | NAV_MAGMA
    ensures agent.kind == CreatureUnit ==>
              (f & NAV_GROUND != 0 <==> agent.canWalk)
              && (f & NAV_WATER != 0 <==> agent.canEnterWater)
              && (f & NAV_MAGMA != 0 <==> agent.canEnterWater)
    ensures f & !(NAV_GROUND | NAV_WATER | NAV_MAGMA) == 0
  {
    if agent.kind == CreatureUnit then
      (if agent.canWalk then NAV_GROUND else NAV_EMPTY)
      | (if agent.canEnterWater then NAV_WATER | NAV_MAGMA else NAV_EMPTY)
    else NAV_GROUND | NAV_WATER | NAV_MAGMA
  }

  /** The include flags after UpdateFilter: a unit that is in or under water
      may also use the terrain it stands in. */
  function UpdatedIncludeFlags(env: Env, includeFlags: NavTerrain): (f: NavTerrain)
    ensures !env.agent.IsUnit() || !(env.agent.isInWater || env.agent.isUnderWater) ==> f == includeFlags
  {
    var a := env.agent;
    if a.IsUnit() && (a.isInWater || a.isUnderWater) then includeFlags | NavTerrainAt(env.world, a.position)
    else includeFlags
  }

  /** UpdateFilter never removes a terrain, and adds none but the one the
      agent stands in. */
  lemma UpdateOnlyAdds(env: Env, includeFlags: NavTerrain)
    ensures var f, t := UpdatedIncludeFlags(env, includeFlags), NavTerrainAt(env.world, env.agent.position);
            f & includeFlags == includeFlags && f | includeFlags | t == includeFlags | t
  {
    OrOnlyAdds(UpdatedIncludeFlags(env, includeFlags), includeFlags, NavTerrainAt(env.world, env.agent.position));
  }

  /** Or-ing b into a, or not, keeps every bit of a and adds only bits of b. */
  lemma OrOnlyAdds(f: NavTerrain, a: NavTerrain, b: NavTerrain)
    requires f == a || f == a | b
    ensures f & a == a && f | a | b == a | b
  {
  }

  /** Updating twice changes nothing more than updating once. */
  lemma UpdatedIncludeFlagsIdempotent(env: Env, includeFlags: NavTerrain)
    ensures UpdatedIncludeFlags(env, UpdatedIncludeFlags(env, includeFlags)) == UpdatedIncludeFlags(env, includeFlags)
  {
  }

  // ---------------------------------------------------------------------
  // Decisions of BuildPolyPath

  /** A squared distance to the mesh of more than 7 units (squared 49). */
  predicate FarFromPoly(distSqr: real) { distSqr > 49.0 }

  /** With a hole in the mesh at either end, the shortcut is still usable
      when the agent flies or the path is in water and it swims; an agent
      that is not a creature counts as both. */
  predicate HoleShortcutUsable(agent: Agent, waterPath: bool)
  {
    var canSwim := if agent.kind == CreatureUnit then agent.canSwim else true;
    var canFly := if agent.kind == CreatureUnit then agent.canFly else true;
    canFly || (waterPath && canSwim)
  }

  /** Both ends in water, one of them under it. */
  predicate WaterEnds(liquidStart: LiquidData, liquidEnd: LiquidData)
  {
    (liquidStart.status == LIQUID_MAP_UNDER_WATER && liquidEnd.status & MAP_LIQUID_STATUS_IN_CONTACT != 0)
    || (liquidStart.status & MAP_LIQUID_STATUS_IN_CONTACT != 0 && liquidEnd.status == LIQUID_MAP_UNDER_WATER)
  }

  /** Water ends touch liquid at both ends and lie under water at one;
      an end walking on water counts, so an agent under water heading for
      a water-walk surface has water ends. */
  lemma WaterEndsInContact(liquidStart: LiquidData, liquidEnd: LiquidData)
    ensures WaterEnds(liquidStart, liquidEnd) ==>
              && liquidStart.status & MAP_LIQUID_STATUS_IN_CONTACT != 0
              && liquidEnd.status & MAP_LIQUID_STATUS_IN_CONTACT != 0
              && (liquidStart.status == LIQUID_MAP_UNDER_WATER || liquidEnd.status == LIQUID_MAP_UNDER_WATER)
    ensures liquidStart.status == LIQUID_MAP_UNDER_WATER && liquidEnd.status == LIQUID_MAP_WATER_WALK ==>
              WaterEnds(liquidStart, liquidEnd)
  {
  }

  /** An end far from the mesh is bridged with a shortcut when the agent is
      a unit that swims such a water path, flies, or falls downwards. */
  predicate FarShortcut(env: Env, startPos: Vec3, endPos: Vec3)
  {
    var a := env.agent;
    var water := WaterEnds(env.world.liquidAt(startPos), env.world.liquidAt(endPos));
    a.IsUnit() && ((a.canSwim && water) || a.canFly || (a.isFalling && endPos.z < startPos.z))
  }

  /** The corrected retry of the partial-corridor branch: drop the last
      polygon of the kept prefix and use the one before it, when there is one. */
  function RetryPrefix(prefix: nat): (r: Option<nat>)
    ensures r.None? <==> prefix <= 1
    ensures r.Some? ==> r.value == prefix - 1 && 1 <= r.value
  {
    if prefix <= 1 then None else Some(prefix - 1)
  }

  /** The retry as written: the prefix length is decremented as an unsigned
      32-bit count and the polygon at one less than it is read. */
  function RetryIndexAsWritten(prefix: bv32): (index: bv32)
    requires prefix >= 1
    ensures prefix >= 2 ==> index < prefix
  {
    (prefix - 1) - 1
  }

  /** A prefix of one polygon (a previous corridor whose last polygon is
      the new start) makes the retry read index 2^32 - 1, far outside the
      74-entry corridor buffer. */
  lemma RetryIndexAsWrittenOverflows()
    ensures PrefixLength(1) == 1
    ensures RetryIndexAsWritten(PrefixLength(1) as bv32) == 0xFFFF_FFFF
    ensures RetryIndexAsWritten(PrefixLength(1) as bv32) as int >= MAX_PATH_LENGTH
  {
  }

  // ---------------------------------------------------------------------
  // Decisions of BuildPointPath

  /** What BuildPointPath does with the points the mesh returned. */
  datatype PointPathRung =
    | AppendEnd    // a one-polygon corridor gave one point: add the end
    | KeepPartial  // the slope stopped the walk: keep what was walked
    | NoPath       // too few points or a failed query: shortcut, no path
    | TooLong      // the point capacity is exhausted: shortcut, short
    | Accept       // take the points

  /** The ladder of BuildPointPath, in the source's order. */
  function PointPathRungOf(polyLength: nat, pointCount: nat, status: Status, limit: nat): (r: PointPathRung)
    ensures r == AppendEnd <==> polyLength == 1 && pointCount == 1 && !SlopeTooSteep(status)
    ensures r == KeepPartial ==> 0 < pointCount && SlopeTooSteep(status) && (pointCount < 2 || Failed(status))
    ensures r == NoPath ==> pointCount < 2 || Failed(status)
    ensures r == TooLong ==> 2 <= pointCount && limit <= pointCount && !Failed(status)
    ensures r == Accept <==> 2 <= pointCount < limit && !Failed(status)
  {
    if polyLength == 1 && pointCount == 1 && !SlopeTooSteep(status) then AppendEnd
    else if pointCount < 2 || Failed(status) then
      if pointCount > 0 && SlopeTooSteep(status) then KeepPartial else NoPath
    else if pointCount >= limit then TooLong
    else Accept
  }

  /** How the ladder treats the statuses a smooth walk reports: a plain
      failure (no points, or the whole capacity) is never taken and becomes
      the no-path shortcut; a slope failure keeps the points walked, if any. */
  lemma RungOfSmoothWalk(polyLength: nat, pointCount: nat, status: Status, limit: nat)
    requires status == DT_FAILURE ==> pointCount == 0 || pointCount == MAX_POINT_PATH_LENGTH
    ensures status == DT_FAILURE ==> PointPathRungOf(polyLength, pointCount, status, limit) == NoPath
    ensures status == DT_FAILURE | DT_SLOPE_TOO_STEEP ==>
              (PointPathRungOf(polyLength, pointCount, status, limit) == KeepPartial <==> pointCount > 0)
  {
    assert !SlopeTooSteep(DT_FAILURE) && Failed(DT_FAILURE);
    assert SlopeTooSteep(DT_FAILURE | DT_SLOPE_TOO_STEEP) && Failed(DT_FAILURE | DT_SLOPE_TOO_STEEP);
  }

  /** The two-point path of BuildShortcut: start and the actual end, each
      at the height the map allows there. */
  function ShortcutPoints(world: World, startPos: Vec3, actualEnd: Vec3): seq<Vec3>
  {
    [Grounded(world, startPos), Grounded(world, actualEnd)]
  }

  /** The points of a mesh path in world axes and on the ground. */
  function GroundedPoints(world: World, pts: seq<DtPoint>): (r: seq<Vec3>)
    ensures |r| == |pts|
    ensures forall i :: 0 <= i < |pts| ==> r[i] == Grounded(world, FromDetour(pts[i]))
  {
    seq(|pts|, i requires 0 <= i < |pts| => Grounded(world, FromDetour(pts[i])))
  }

  // ---------------------------------------------------------------------
  // ShortenPathUntilDist

  /** Whether the path may end at p: with p raised by the agent's collision
      height, the line from the agent's hit-sphere point facing the raised
      point to that point is clear, and, when slopes are checked, the agent
      can swim or climb from where it stands to p. */
  predicate KeepsSight(env: Env, canCheckSlope: bool, p: Vec3)
  {
    var h := env.agent.collisionHeight;
    var eye := Vec3(p.x, p.y, p.z + h);
    env.world.lineOfSight(env.world.hitSpherePoint(eye), eye)
    && !(canCheckSlope && !IsSwimmableSegment(env, env.agent.position, p, true)
         && !IsWalkableClimb(env.world, env.agent.position, p, h))
  }

  /** Where the shortened path ends. */
  datatype ShortenEnd =
    | Interpolate(i: nat)  // points[i] moves towards points[i - 1]; the rest is dropped
    | Truncate(i: nat)     // points[i - 1] is unusable; the path ends at points[i]

  /** The backwards scan of ShortenPathUntilDist from index i, all of whose
      successors are within the distance: the first index whose predecessor
      is outside it (Interpolate), unless a predecessor the path cannot end
      at comes first (Truncate). */
  function ShortenFrom(env: Env, canCheckSlope: bool, points: seq<Vec3>, target: Vec3, distSq: real, i: nat)
    : (r: ShortenEnd)
    requires 1 <= i < |points|
    requires Dist3DSqr(points[0], target) >= distSq
    ensures 1 <= r.i <= i
    ensures r.Interpolate? ==> Dist3DSqr(points[r.i - 1], target) >= distSq
    ensures r.Truncate? ==> !KeepsSight(env, canCheckSlope, points[r.i - 1])
    ensures forall j :: r.i <= j < i ==> Dist3DSqr(points[j], target) < distSq
    decreases i
  {
    if Dist3DSqr(points[i - 1], target) >= distSq then Interpolate(i)
    else if !KeepsSight(env, canCheckSlope, points[i - 1]) then Truncate(i)
    else ShortenFrom(env, canCheckSlope, points, target, distSq, i - 1)
  }

  /** ShortenPathUntilDist on the point path: a path of fewer than two
      points, whose first point is within dist of the target, or whose last
      point is not, stays as it is; otherwise the path is cut at the first
      point the backwards scan stops at. */
  function Shortened(env: Env, canCheckSlope: bool, points: seq<Vec3>, target: Vec3, dist: real)
    : (r: seq<Vec3>)
  {
    var distSq := dist * dist;
    if |points| < 2 || Dist3DSqr(points[0], target) < distSq
       || Dist3DSqr(points[|points| - 1], target) >= distSq then points
    else
      match ShortenFrom(env, canCheckSlope, points, target, distSq, |points| - 1)
      case Interpolate(i) => points[..i] + [env.world.standOffPoint(points[i - 1], points[i], target, dist)]
      case Truncate(i) => points[..i + 1]
  }

  /** A shortened path keeps between two points and all of them, and
      changes none but its last. */
  lemma ShortenedShape(env: Env, canCheckSlope: bool, points: seq<Vec3>, target: Vec3, dist: real)
    requires |points| >= 2
    ensures var r := Shortened(env, canCheckSlope, points, target, dist);
            2 <= |r| <= |points| && r[..|r| - 1] == points[..|r| - 1]
  {
  }

  /** Every point the shortening drops, and the one it moves, lay within
      dist of the target; the point before the new end lies outside it
      unless the path was cut for lack of sight. */
  lemma {:induction false} ShortenedDropsOnlyClosePoints(env: Env, canCheckSlope: bool, points: seq<Vec3>,
                                                         target: Vec3, dist: real)
    requires |points| >= 2
    requires Dist3DSqr(points[0], target) >= dist * dist
    requires Dist3DSqr(points[|points| - 1], target) < dist * dist
    ensures var r := Shortened(env, canCheckSlope, points, target, dist);
            forall j :: |r| - 1 <= j < |points| && (j > |r| - 1 || r[j] != points[j]) ==>
              Dist3DSqr(points[j], target) < dist * dist
  {
    var distSq := dist * dist;
    var e := ShortenFrom(env, canCheckSlope, points, target, distSq, |points| - 1);
    assert forall j :: e.i <= j < |points| ==> Dist3DSqr(points[j], target) < distSq;
  }
}
