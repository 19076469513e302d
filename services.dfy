/** What the planner asks of the world around it. The navigation mesh library
    (Detour), the map (liquids, line of sight, ground height) and the agent
    that owns the planner are outside this model; each query the planner makes
    of them is a function-typed field of a datatype, so every planner operation
    takes the answers as a parameter and is proved for all of them. */
module Services {
  import opened Geometry
  import opened Flags
  import opened Corridor

  datatype Option<T> = None | Some(value: T)

  /** What kind of object owns the planner (ToUnit / ToCreature / IsCreature). */
  datatype UnitKind = CreatureUnit | OtherUnit | NotAUnit

  /** A snapshot of the owning agent: its kind, its movement capabilities and
      current state, its position and its collision height. */
  datatype Agent = Agent(
    kind: UnitKind,
    canWalk: bool,
    canEnterWater: bool,
    canSwim: bool,
    canFly: bool,
    isFalling: bool,
    isInWater: bool,
    isUnderWater: bool,
    ignoresPathfinding: bool,
    position: Vec3,
    collisionHeight: real)
  {
    predicate IsUnit() { kind != NotAUnit }
  }

  /** The map services, for the agent's phase and collision height. */
  datatype World = World(
    liquidAt: Vec3 -> LiquidData,              // GetLiquidData
    isInWater: Vec3 -> bool,                   // Map::IsInWater
    lineOfSight: (Vec3, Vec3) -> bool,         // isInLineOfSight
    hitSpherePoint: Vec3 -> Vec3,              // GetHitSpherePointFor
    allowedZ: Vec3 -> real,                    // UpdateAllowedPositionZ
    validMapCoord: Vec3 -> bool,               // IsValidMapCoord
    slopeAngleDegrees: (Vec3, Vec3) -> real,   // getSlopeAngleAbs * 180 / pi
    standOffPoint: (Vec3, Vec3, Vec3, real) -> Vec3, // the interpolation that ends a shortened path
    stepTarget: (DtPoint, DtPoint, bool) -> DtPoint) // the bounded step of one smoothing iteration

  /** The polygon filter the mesh queries take. */
  datatype Filter = Filter(includeFlags: NavTerrain, excludeFlags: NavTerrain)

  /** One corner of a straight path. */
  datatype Corner = Corner(pos: DtPoint, flags: CornerFlags, ref: PolyRef)

  datatype NearestPoly = NearestPoly(status: Status, ref: PolyRef, point: DtPoint)
  datatype PolyPath = PolyPath(status: Status, polys: seq<PolyRef>)
  datatype StraightPath = StraightPath(status: Status, corners: seq<Corner>)
  /** hit is the fraction of the segment walked; FLT_MAX when nothing is hit. */
  datatype RayHit = RayHit(status: Status, hit: real, polys: seq<PolyRef>)
  datatype SurfaceMove = SurfaceMove(status: Status, pos: DtPoint, visited: seq<PolyRef>)

  /** The mesh library's query object and the mesh it reads. */
  datatype NavQuery = NavQuery(
    closestPointOnPoly: (PolyRef, DtPoint) -> Option<DtPoint>,
    closestPointOnPolyBoundary: (PolyRef, DtPoint) -> Option<DtPoint>,
    findNearestPoly: (DtPoint, DtPoint, Filter) -> NearestPoly,
    findPath: (PolyRef, PolyRef, DtPoint, DtPoint, Filter, nat) -> PolyPath,
    findStraightPath: (DtPoint, DtPoint, seq<PolyRef>, nat) -> StraightPath,
    raycast: (PolyRef, DtPoint, DtPoint, Filter, nat) -> RayHit,
    moveAlongSurface: (PolyRef, DtPoint, DtPoint, Filter, nat) -> SurfaceMove,
    polyHeight: (PolyRef, DtPoint) -> Option<real>,
    offMeshEndPoints: (PolyRef, PolyRef) -> Option<(DtPoint, DtPoint)>,
    tileLoc: DtPoint -> (int, int),
    hasTile: (int, int) -> bool)

  /** The library honours the capacity it is given: no query writes more
      entries than its max argument allows. */
  ghost predicate WellBehaved(q: NavQuery)
  {
    (forall a, b, s, e, f, m :: |q.findPath(a, b, s, e, f, m).polys| <= m)
    && (forall s, e, p, m :: |q.findStraightPath(s, e, p, m).corners| <= m)
    && (forall a, s, e, f, m :: |q.raycast(a, s, e, f, m).polys| <= m)
    && (forall a, s, e, f, m :: |q.moveAlongSurface(a, s, e, f, m).visited| <= m)
  }

  /** Everything one planner call consults. */
  datatype Env = Env(agent: Agent, world: World, query: NavQuery)

  /** The largest finite float; the "no distance" value. */
  const FLT_MAX: real := 340282346638528859811704183484516925440.0

  /** The terrain class at a world position (GetNavTerrain(x, y, z)). */
  function NavTerrainAt(world: World, p: Vec3): (t: NavTerrain)
    ensures t == NAV_GROUND || t == NAV_WATER || t == NAV_MAGMA
    ensures world.liquidAt(p).status == LIQUID_MAP_NO_WATER ==> t == NAV_GROUND
  {
    GetNavTerrain(world.liquidAt(p))
  }

  /** Both ends of a short segment lie in water and, when asked to check,
      the agent can swim (a non-creature is taken to swim). */
  predicate IsSwimmableSegment(env: Env, p1: Vec3, p2: Vec3, checkSwim: bool)
  {
    env.world.isInWater(p1) && env.world.isInWater(p2)
    && (!checkSwim || env.agent.kind != CreatureUnit || env.agent.canSwim)
  }

  /** The height an agent of the given height can climb over a slope:
      the height reduced by one percent per degree of slope. */
  function RequiredHeightToClimb(world: World, p1: Vec3, p2: Vec3, sourceHeight: real): (h: real)
    ensures h == sourceHeight * (1.0 - world.slopeAngleDegrees(p1, p2) / 100.0)
    ensures world.slopeAngleDegrees(p1, p2) == 0.0 ==> h == sourceHeight
    ensures world.slopeAngleDegrees(p1, p2) == 100.0 ==> h == 0.0
  {
    sourceHeight - sourceHeight * (world.slopeAngleDegrees(p1, p2) / 100.0)
  }

  /** The climb from p1 to p2 is walkable: its height difference is within
      what the slope allows. */
  predicate IsWalkableClimb(world: World, p1: Vec3, p2: Vec3, sourceHeight: real)
  {
    Abs(p2.z - p1.z) <= RequiredHeightToClimb(world, p1, p2, sourceHeight)
  }

  /** A climb is walkable exactly when its height difference is within the
      budget of the agent's height less one percent per degree of slope. */
  lemma WalkableClimbBudget(world: World, p1: Vec3, p2: Vec3, sourceHeight: real)
    ensures IsWalkableClimb(world, p1, p2, sourceHeight)
            <==> Abs(p2.z - p1.z) <= sourceHeight * (1.0 - world.slopeAngleDegrees(p1, p2) / 100.0)
  {
  }

  /** For an agent of non-negative height, a steeper slope never allows a
      greater climb, so a climb walkable on the steeper slope is walkable on
      the gentler one with the same height difference. */
  lemma SteeperSlopeClimbsLess(world: World, p1: Vec3, p2: Vec3, q1: Vec3, q2: Vec3, sourceHeight: real)
    requires sourceHeight >= 0.0
    requires world.slopeAngleDegrees(p1, p2) <= world.slopeAngleDegrees(q1, q2)
    ensures RequiredHeightToClimb(world, q1, q2, sourceHeight) <= RequiredHeightToClimb(world, p1, p2, sourceHeight)
    ensures Abs(q2.z - q1.z) == Abs(p2.z - p1.z) && IsWalkableClimb(world, q1, q2, sourceHeight) ==>
              IsWalkableClimb(world, p1, p2, sourceHeight)
  {
    var a, b := world.slopeAngleDegrees(p1, p2), world.slopeAngleDegrees(q1, q2);
    assert sourceHeight * (b / 100.0) - sourceHeight * (a / 100.0) == sourceHeight * ((b - a) / 100.0);
    assert sourceHeight * ((b - a) / 100.0) >= 0.0;
  }

  /** Every point of the path lies in water or magma. */
  function AllInWater(world: World, points: seq<Vec3>): (b: bool)
    ensures b <==> forall i :: 0 <= i < |points| ==>
                     NavTerrainAt(world, points[i]) in {NAV_WATER, NAV_MAGMA}
  {
    if points == [] then true
    else
      var t := NavTerrainAt(world, points[0]);
      if t != NAV_MAGMA && t != NAV_WATER then false
      else
        assert forall i :: 1 <= i < |points| ==> points[i] == points[1..][i - 1];
        AllInWater(world, points[1..])
  }

  /** IsWaterPath: the scan that stops at the first point on neither water
      nor magma. */
  method IsWaterPath(world: World, points: seq<Vec3>) returns (waterPath: bool)
    ensures waterPath == AllInWater(world, points)
  {
    waterPath := true;
    var i := 0;
    while i < |points|
      invariant 0 <= i <= |points|
      invariant forall k :: 0 <= k < i ==> NavTerrainAt(world, points[k]) in {NAV_WATER, NAV_MAGMA}
    {
      var terrain := NavTerrainAt(world, points[i]);
      if terrain != NAV_MAGMA && terrain != NAV_WATER {
        waterPath := false;
        break;
      }
      i := i + 1;
    }
  }

  /** The mesh has a loaded tile under p; a negative tile coordinate counts
      as no tile. */
  predicate HaveTile(q: NavQuery, p: Vec3)
  {
    var (tx, ty) := q.tileLoc(ToDetour(p));
    tx >= 0 && ty >= 0 && q.hasTile(tx, ty)
  }

  /** A point moved to the height the map allows there. */
  function Grounded(world: World, p: Vec3): (r: Vec3)
    ensures r.x == p.x && r.y == p.y && r.z == world.allowedZ(p)
  {
    Vec3(p.x, p.y, world.allowedZ(p))
  }

  /** NormalizePath: every point moved to the height the map allows. */
  method NormalizePath(world: World, points: seq<Vec3>) returns (r: seq<Vec3>)
    ensures |r| == |points|
    ensures forall i :: 0 <= i < |points| ==> r[i] == Grounded(world, points[i])
  {
    r := points;
    var i := 0;
    while i < |r|
      invariant 0 <= i <= |r| == |points|
      invariant forall k :: 0 <= k < i ==> r[k] == Grounded(world, points[k])
      invariant forall k :: i <= k < |r| ==> r[k] == points[k]
    {
      r := r[i := Grounded(world, r[i])];
      i := i + 1;
    }
  }
}
