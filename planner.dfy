/** The path planner of one agent (PathGenerator): it remembers the polygon
    corridor and the point path of its last request; each new request either
    reuses part of that corridor or asks the mesh for a fresh one, falls back
    to a two-point shortcut where the mesh cannot help, and turns the
    corridor into points. */
module Planner {
  import opened Geometry
  import opened Flags
  import opened Corridor
  import opened Services
  import opened Steering
  import opened Decisions

  /** The mesh distance reported when no polygon is found (FLT_MAX), squared. */
  const NO_POLY_DIST_SQR: real := FLT_MAX * FLT_MAX

  /** The box findNearestPoly first searches around a point, and the taller
      one it tries next (half extents in mesh axes: the elevation is slot 1). */
  const SMALL_EXTENTS: DtPoint := DtPoint(3.0, 5.0, 3.0)
  const LARGE_EXTENTS: DtPoint := DtPoint(3.0, 50.0, 3.0)

  /** The nearest polygon findNearestPoly reports in a box, with the squared
      distance to its closest point, when the query succeeds with a polygon. */
  function NearestPolyIn(q: NavQuery, point: DtPoint, extents: DtPoint, filter: Filter): (r: Option<(PolyRef, real)>)
    ensures r.Some? ==> r.value.0 != INVALID_POLYREF && r.value.1 >= 0.0
  {
    var n := q.findNearestPoly(point, extents, filter);
    if Succeeded(n.status) && n.ref != INVALID_POLYREF then Some((n.ref, DtDistSqr(n.point, point))) else None
  }

  /** A point moved onto the polygon: to its surface height when the mesh has
      one there, else to the nearest point of its boundary, else unchanged. */
  function ClampToPoly(q: NavQuery, ref: PolyRef, p: DtPoint): (r: DtPoint)
    ensures q.polyHeight(ref, p).Some? ==> r.d1 == q.polyHeight(ref, p).value
    ensures q.polyHeight(ref, p).Some? ==> FromDetour(r).x == FromDetour(p).x && FromDetour(r).y == FromDetour(p).y
    ensures q.polyHeight(ref, p).None? && q.closestPointOnPolyBoundary(ref, p).Some? ==>
              r == q.closestPointOnPolyBoundary(ref, p).value
    ensures q.polyHeight(ref, p).None? && q.closestPointOnPolyBoundary(ref, p).None? ==> r == p
  {
    var h := q.polyHeight(ref, p);
    if h.Some? then WithElevation(p, h.value)
    else
      var c := q.closestPointOnPolyBoundary(ref, p);
      if c.Some? then c.value else p
  }

  /** The corridor kept when only the start lies on the old corridor refs:
      its prefix polygons from startIndex on, the last of them replaced by
      the path the mesh finds from that polygon to endPoly (suffix). */
  ghost predicate SuffixAppended(q: NavQuery, filter: Filter, refs: seq<PolyRef>, startIndex: nat, endPoly: PolyRef,
                                 endPoint: DtPoint, prefix: nat, suffix: seq<PolyRef>, corridor: seq<PolyRef>)
  {
    && 1 <= prefix && startIndex + prefix <= |refs| && prefix <= MAX_PATH_LENGTH
    && var from := refs[startIndex + prefix - 1];
       && q.closestPointOnPoly(from, endPoint).Some?
       && suffix == q.findPath(from, endPoly, q.closestPointOnPoly(from, endPoint).value,
                               endPoint, filter, MAX_PATH_LENGTH - prefix).polys
       && corridor == refs[startIndex..startIndex + prefix - 1] + suffix
  }

  /** The first prefix entries of a buffer whose first p entries were moved
      from refs[startIndex..]. */
  lemma PrefixOfMoved(refs: seq<PolyRef>, moved: seq<PolyRef>, startIndex: nat, p: nat, prefix: nat)
    requires 1 <= prefix <= p <= |moved| && startIndex + p <= |refs|
    requires moved[..p] == refs[startIndex..startIndex + p]
    ensures moved[prefix - 1] == refs[startIndex + prefix - 1]
    ensures moved[..prefix - 1] == refs[startIndex..startIndex + prefix - 1]
  {
    assert moved[..prefix - 1] == moved[..p][..prefix - 1];
    assert refs[startIndex..startIndex + p][..prefix - 1] == refs[startIndex..startIndex + prefix - 1];
    assert moved[prefix - 1] == moved[..p][prefix - 1];
  }

  /** The polygon of the mesh near the point: the nearest one in the small
      search box, else the nearest one in the tall box, else none, reported
      at the squared distance NO_POLY_DIST_SQR. */
  function MeshPolyNear(q: NavQuery, point: DtPoint, filter: Filter): (r: (PolyRef, real))
    ensures r.0 == INVALID_POLYREF <==>
              NearestPolyIn(q, point, SMALL_EXTENTS, filter).None? && NearestPolyIn(q, point, LARGE_EXTENTS, filter).None?
    ensures r.0 == INVALID_POLYREF ==> r.1 == NO_POLY_DIST_SQR
    ensures r.0 != INVALID_POLYREF ==> 0.0 <= r.1
  {
    match NearestPolyIn(q, point, SMALL_EXTENTS, filter)
    case Some(n) => n
    case None =>
      match NearestPolyIn(q, point, LARGE_EXTENTS, filter)
      case Some(n) => n
      case None => (INVALID_POLYREF, NO_POLY_DIST_SQR)
  }

  /** i is the entry a scan of the first n squared distances ds settles on
      when it returns a polygon: measured below 3, no farther than any other
      entry scanned, and strictly nearer than every entry before it. */
  ghost predicate ScanPick(ds: seq<Option<real>>, n: nat, i: nat)
    requires n <= |ds|
  {
    && i < n && ds[i].Some? && ds[i].value < 3.0
    && (forall j :: 0 <= j < n && ds[j].Some? ==> ds[i].value <= ds[j].value)
    && (forall j :: 0 <= j < i && ds[j].Some? ==> ds[j].value > ds[i].value)
  }

  /** Some entry is picked as soon as one scanned entry lies below 3. */
  lemma {:induction false} ScanPickExists(ds: seq<Option<real>>, n: nat, k: nat)
    requires n <= |ds| && k < n && ds[k].Some? && ds[k].value < 3.0
    ensures exists i: nat :: ScanPick(ds, n, i)
  {
    if exists j :: 0 <= j < n - 1 && ds[j].Some? && ds[j].value < 3.0 {
      var j :| 0 <= j < n - 1 && ds[j].Some? && ds[j].value < 3.0;
      ScanPickExists(ds, n - 1, j);
      var i: nat :| ScanPick(ds, n - 1, i);
      if ds[n - 1].Some? && ds[n - 1].value < ds[i].value {
        assert ScanPick(ds, n, n - 1);
      } else {
        assert ScanPick(ds, n, i);
      }
    } else {
      assert ScanPick(ds, n, n - 1);
    }
  }

  /** The positions of a straight path's corners. */
  function CornerPositions(cs: seq<Corner>): (r: seq<DtPoint>)
    ensures |r| == |cs|
    ensures forall i :: 0 <= i < |cs| ==> r[i] == cs[i].pos
  {
    seq(|cs|, i requires 0 <= i < |cs| => cs[i].pos)
  }

  class PathGenerator {
    /** Whether the map's navigation mesh and its query object were found
        when the planner was made. */
    const hasNavMesh: bool
    /** The polygon corridor buffer; its first polyLength entries are the
        current corridor. */
    const pathPolyRefs: array<PolyRef>
    var polyLength: nat
    var pathType: PathType
    var pathPoints: seq<Vec3>
    var filter: Filter
    var useStraightPath: bool
    var forceDestination: bool
    var slopeCheck: bool
    var pointPathLimit: nat
    var useRaycast: bool
    var startPosition: Vec3
    var endPosition: Vec3
    var actualEndPosition: Vec3

    /** The corridor fits its buffer and a point path fits its buffer. */
    predicate Valid()
      reads this
    {
      pathPolyRefs.Length == MAX_PATH_LENGTH && polyLength <= MAX_PATH_LENGTH
      && pointPathLimit <= MAX_POINT_PATH_LENGTH
    }

    /** A path typed as a shortcut, as no path or as too long is the
        two-point shortcut, with no corridor. */
    predicate ShortcutShaped(world: World)
      reads this
    {
      pathType & (PATHFIND_SHORTCUT | PATHFIND_NOPATH | PATHFIND_SHORT) != 0 ==>
        polyLength == 0 && pathPoints == ShortcutPoints(world, startPosition, actualEndPosition)
    }

    /** A new planner: empty corridor and path, no end yet, every option off,
        the full point capacity, and the filter made for the agent. */
    constructor (env: Env, hasNavMesh: bool)
      ensures Valid() && fresh(pathPolyRefs) && this.hasNavMesh == hasNavMesh
      ensures pathPolyRefs[..] == seq(MAX_PATH_LENGTH, _ => INVALID_POLYREF)
      ensures polyLength == 0 && pathType == PATHFIND_BLANK && pathPoints == []
      ensures !useStraightPath && !forceDestination && !slopeCheck && !useRaycast
      ensures pointPathLimit == MAX_POINT_PATH_LENGTH
      ensures startPosition == endPosition == actualEndPosition == Vec3(0.0, 0.0, 0.0)
      ensures filter == Filter(UpdatedIncludeFlags(env, BaseIncludeFlags(env.agent)), NAV_EMPTY)
    {
      this.hasNavMesh := hasNavMesh;
      pathPolyRefs := new PolyRef[MAX_PATH_LENGTH](_ => INVALID_POLYREF);
      polyLength := 0;
      pathType := PATHFIND_BLANK;
      pathPoints := [];
      useStraightPath, forceDestination, slopeCheck, useRaycast := false, false, false, false;
      pointPathLimit := MAX_POINT_PATH_LENGTH;
      startPosition, endPosition, actualEndPosition := Vec3(0.0, 0.0, 0.0), Vec3(0.0, 0.0, 0.0), Vec3(0.0, 0.0, 0.0);
      new;
      CreateFilter(env);
    }

    /** CreateFilter: the agent's own terrain, nothing excluded, then
        UpdateFilter. */
    method CreateFilter(env: Env)
      modifies this`filter
      ensures filter == Filter(UpdatedIncludeFlags(env, BaseIncludeFlags(env.agent)), NAV_EMPTY)
    {
      filter := Filter(BaseIncludeFlags(env.agent), NAV_EMPTY);
      UpdateFilter(env);
    }

    /** UpdateFilter: a unit in or under water may also use the terrain it
        stands in. */
    method UpdateFilter(env: Env)
      modifies this`filter
      ensures filter == Filter(UpdatedIncludeFlags(env, old(filter.includeFlags)), old(filter.excludeFlags))
    {
      if env.agent.IsUnit() && (env.agent.isInWater || env.agent.isUnderWater) {
        filter := filter.(includeFlags := filter.includeFlags | NavTerrainAt(env.world, env.agent.position));
      }
    }

    /** AddFarFromPolyFlags: tag the path type with the ends that lie far
        from the mesh. */
    method AddFarFromPolyFlags(startFarFromPoly: bool, endFarFromPoly: bool)
      modifies this`pathType
      ensures pathType == WithFarFromPolyFlags(old(pathType), startFarFromPoly, endFarFromPoly)
    {
      if startFarFromPoly {
        pathType := pathType | PATHFIND_FARFROMPOLY_START;
      }
      if endFarFromPoly {
        pathType := pathType | PATHFIND_FARFROMPOLY_END;
      }
    }

    /** BuildShortcut: drop the corridor and go straight from the start to the
        actual end, both on the ground. */
    method BuildShortcut(env: Env)
      requires Valid()
      modifies this`polyLength, this`pathPoints, this`pathType
      ensures Valid() && ShortcutShaped(env.world)
      ensures polyLength == 0 && pathType == PATHFIND_SHORTCUT
      ensures pathPoints == ShortcutPoints(env.world, startPosition, actualEndPosition)
    {
      // Clear()
      polyLength := 0;
      pathPoints := [];
      // make two point path, our curr pos is the start, and dest is the end
      pathPoints := NormalizePath(env.world, [startPosition, actualEndPosition]);
      pathType := PATHFIND_SHORTCUT;
    }

    /** GetPolyByLocation: a polygon of the current corridor near the point,
        else the nearest polygon in a small box around it, else in a tall
        box; with the squared distance to it. With none, the invalid
        reference at the largest distance. */
    method GetPolyByLocation(q: NavQuery, point: DtPoint) returns (ref: PolyRef, distSqr: real)
      requires Valid()
      ensures var polys := pathPolyRefs[..polyLength];
              var ds := Dists(q, polys, point);
              var n := ScanLength(ds);
              && ((forall i :: 0 <= i < n && ds[i].Some? ==> ds[i].value >= 3.0) ==>
                    (ref, distSqr) == MeshPolyNear(q, point, filter))
              && (forall i: nat :: ScanPick(ds, n, i) ==>
                    if polys[i] != INVALID_POLYREF then ref == polys[i] && distSqr == ds[i].value
                    else (ref, distSqr) == MeshPolyNear(q, point, filter))
      ensures polyLength == 0 ==> (ref, distSqr) == MeshPolyNear(q, point, filter)
    {
      // first we check the current path
      ghost var polys := pathPolyRefs[..polyLength];
      ghost var ds := Dists(q, polys, point);
      ghost var n := ScanLength(ds);
      ref, distSqr := GetPathPolyByPosition(q, pathPolyRefs[..polyLength], point);
      ghost var w: nat := 0;
      if distSqr < 3.0 {
        w :| 0 <= w < n && ds[w] == Some(distSqr) && polys[w] == ref
             && forall j :: 0 <= j < w && ds[j].Some? ==> ds[j].value > distSqr;
        assert ScanPick(ds, n, w);
        // an earlier pick would be nearer than w, a later one farther
        assert forall i: nat :: ScanPick(ds, n, i) ==> i == w;
      }
      if ref != INVALID_POLYREF {
        return;
      }
      // try to get it by findNearestPoly(), first with the low search box
      var small := NearestPolyIn(q, point, SMALL_EXTENTS, filter);
      if small.Some? {
        return small.value.0, small.value.1;
      }
      // still nothing .. try with bigger search box
      var large := NearestPolyIn(q, point, LARGE_EXTENTS, filter);
      if large.Some? {
        return large.value.0, large.value.1;
      }
      return INVALID_POLYREF, NO_POLY_DIST_SQR;
    }

    /** ShortenPathUntilDist: cut the point path so that it stops about dist
        short of target (see Shortened); a path that was never built is left
        alone. The branch that would collapse the path onto its second point
        is unreachable: the scan always stops at the first point, which lies
        outside the distance. */
    method ShortenPathUntilDist(env: Env, target: Vec3, dist: real)
      modifies this`pathPoints
      ensures pathType == PATHFIND_BLANK ==> pathPoints == old(pathPoints)
      ensures pathType != PATHFIND_BLANK ==>
                pathPoints == Shortened(env, SlopeCheckApplies(slopeCheck, pathType), old(pathPoints), target, dist)
    {
      if pathType == PATHFIND_BLANK || |pathPoints| < 2 {
        return;
      }
      var distSq := dist * dist;
      // the first point of the path must be outside the specified range
      if Dist3DSqr(pathPoints[0], target) < distSq {
        return;
      }
      // check if we even need to do anything
      if Dist3DSqr(pathPoints[|pathPoints| - 1], target) >= distSq {
        return;
      }
      var canCheckSlope := SlopeCheckApplies(slopeCheck, pathType);
      ghost var pts := pathPoints;
      var i := |pathPoints| - 1;
      while true
        invariant 1 <= i < |pts| && pathPoints == pts
        invariant ShortenFrom(env, canCheckSlope, pts, target, distSq, |pts| - 1)
                  == ShortenFrom(env, canCheckSlope, pts, target, distSq, i)
        decreases i
      {
        // pathPoints[i] is too close already (from the previous iteration)
        if Dist3DSqr(pathPoints[i - 1], target) >= distSq {
          break;
        }
        if !KeepsSight(env, canCheckSlope, pathPoints[i - 1]) {
          // simply use the last valid path
          pathPoints := pathPoints[..i + 1];
          return;
        }
        i := i - 1;
        if i == 0 {
          // no point found that fulfills the condition
          assert false;
        }
      }
      // pathPoints[i] is too close, pathPoints[i - 1] is not: the end lies between the two
      pathPoints := pathPoints[..i] + [env.world.standOffPoint(pathPoints[i - 1], pathPoints[i], target, dist)];
    }

    /** What every outcome of BuildPointPath leaves, given the type and the
        corridor length before it: a valid planner with one to the point
        capacity of points, the corridor kept or dropped, a built path
        still typed, the shortcut types kept for the shortcut, a path that
        ends at the actual end unless it is the shortcut, and a plain normal
        type only where it was normal before, on the same corridor. */
    predicate PointPathBuilt(world: World, oldType: PathType, oldPolyLength: nat)
      reads this
    {
      && Valid()
      && 1 <= |pathPoints| <= MAX_POINT_PATH_LENGTH
      && (polyLength == 0 || polyLength == oldPolyLength)
      && (oldType != PATHFIND_BLANK ==> pathType != PATHFIND_BLANK)
      && (oldType & (PATHFIND_SHORTCUT | PATHFIND_NOPATH | PATHFIND_SHORT) == 0 ==> ShortcutShaped(world))
      && (pathPoints == ShortcutPoints(world, startPosition, actualEndPosition)
          || pathPoints[|pathPoints| - 1] == actualEndPosition)
      && (pathType == PATHFIND_NORMAL ==> oldType == PATHFIND_NORMAL && polyLength == oldPolyLength)
    }

    /** What each rung of the ladder leaves (see PointPathRungOf), given the
        status and points the corridor gave and the type and corridor
        length before: the walked points and the incomplete tag; the
        shortcut typed no path or short; or the points (or the first point
        and the end) on the ground, as PointsTaken says. */
    predicate RungTaken(world: World, status: Status, points: seq<DtPoint>, endPoint: DtPoint,
                        oldType: PathType, oldPolyLength: nat)
      reads this
    {
      var rung := PointPathRungOf(oldPolyLength, |points|, status, pointPathLimit);
      && (rung == KeepPartial ==> 0 < |pathPoints| && pathPoints == GroundedPoints(world, points)
                                  && actualEndPosition == pathPoints[|pathPoints| - 1]
                                  && pathType == oldType | PATHFIND_INCOMPLETE)
      && (rung == NoPath ==> pathType == PATHFIND_SHORTCUT | PATHFIND_NOPATH && polyLength == 0
                             && pathPoints == ShortcutPoints(world, startPosition, actualEndPosition))
      && (rung == TooLong ==> pathType == PATHFIND_SHORTCUT | PATHFIND_SHORT && polyLength == 0
                              && pathPoints == ShortcutPoints(world, startPosition, actualEndPosition))
      && (rung == AppendEnd || rung == Accept ==>
            PointsTaken(world, GroundedPoints(world, if rung == AppendEnd then [points[0], endPoint] else points),
                        oldType, oldPolyLength))
    }

    /** What FinishPoints leaves for the grounded points g, given the type and
        the corridor length before: g itself, ending at its last point with
        the type and corridor kept; unless the destination is forced and g
        does not reach it (or the type was not normal), when the path ends
        at the destination instead, typed normal not using a path: g with
        its last point replaced when that point came closer than the start
        (by the 0.3 factor on squared distances), else the shortcut. */
    predicate PointsTaken(world: World, g: seq<Vec3>, oldType: PathType, oldPolyLength: nat)
      reads this
    {
      && 2 <= |g|
      && var forced := forceDestination && (oldType & PATHFIND_NORMAL == 0
                                            || !InRange(endPosition, g[|g| - 1], 1.0, 1.0));
         var keep := Dist3DSqr(g[|g| - 1], endPosition) < 0.3 * Dist3DSqr(startPosition, endPosition);
         && (!forced ==> pathPoints == g && actualEndPosition == g[|g| - 1]
                         && pathType == oldType && polyLength == oldPolyLength)
         && (forced ==> actualEndPosition == endPosition && pathType == PATHFIND_NORMAL | PATHFIND_NOT_USING_PATH)
         && (forced && keep ==> pathPoints == g[..|g| - 1] + [endPosition] && polyLength == oldPolyLength)
         && (forced && !keep ==> pathPoints == ShortcutPoints(world, startPosition, endPosition) && polyLength == 0)
    }

    /** The common end of BuildPointPath: store the points on the ground and
        end the path at its last point. When the destination is forced and
        the path does not reach it, the path either ends at the destination
        instead (when its end already came closer than the start, by the
        0.3 factor on squared distances) or becomes the shortcut to it. */
    method FinishPoints(env: Env, pts: seq<DtPoint>)
      requires Valid() && 2 <= |pts| <= MAX_POINT_PATH_LENGTH
      modifies this`pathPoints, this`actualEndPosition, this`pathType, this`polyLength
      ensures PointPathBuilt(env.world, old(pathType), old(polyLength))
      ensures PointsTaken(env.world, GroundedPoints(env.world, pts), old(pathType), old(polyLength))
    {
      var g := NormalizePath(env.world, seq(|pts|, i requires 0 <= i < |pts| => FromDetour(pts[i])));
      assert g == GroundedPoints(env.world, pts);
      pathPoints := g;
      // first point is always our current location - we need the next one
      actualEndPosition := pathPoints[|pathPoints| - 1];

      // force the given destination, if needed
      if forceDestination
         && (pathType & PATHFIND_NORMAL == 0 || !InRange(endPosition, actualEndPosition, 1.0, 1.0)) {
        ForceDestination(env);
      }
    }

    /** A forced destination the path does not reach: end the path there
        instead when its end already came closer than the start (by the 0.3
        factor on squared distances), else go straight there; either way
        typed normal, not using a path. */
    method ForceDestination(env: Env)
      requires Valid() && 2 <= |pathPoints| <= MAX_POINT_PATH_LENGTH
      modifies this`pathPoints, this`actualEndPosition, this`pathType, this`polyLength
      ensures PointPathBuilt(env.world, old(pathType), old(polyLength))
      ensures actualEndPosition == endPosition && pathType == PATHFIND_NORMAL | PATHFIND_NOT_USING_PATH
      ensures var last := old(pathPoints[|pathPoints| - 1]);
              && (Dist3DSqr(last, endPosition) < 0.3 * Dist3DSqr(startPosition, endPosition) ==>
                    pathPoints == old(pathPoints[..|pathPoints| - 1]) + [endPosition] && polyLength == old(polyLength))
              && (Dist3DSqr(last, endPosition) >= 0.3 * Dist3DSqr(startPosition, endPosition) ==>
                    pathPoints == ShortcutPoints(env.world, startPosition, endPosition) && polyLength == 0)
    {
      // we may want to keep partial subpath
      if Dist3DSqr(pathPoints[|pathPoints| - 1], endPosition) < 0.3 * Dist3DSqr(startPosition, endPosition) {
        actualEndPosition := endPosition;
        pathPoints := pathPoints[|pathPoints| - 1 := endPosition];
        assert pathPoints == old(pathPoints[..|pathPoints| - 1]) + [endPosition];
      } else {
        actualEndPosition := endPosition;
        BuildShortcut(env);
      }
      pathType := PATHFIND_NORMAL | PATHFIND_NOT_USING_PATH;
    }

    /** The shortcut typed with one more tag (no path, or short). */
    method TaggedShortcut(env: Env, tag: PathType)
      requires Valid() && tag != PATHFIND_BLANK
      modifies this`polyLength, this`pathPoints, this`pathType
      ensures PointPathBuilt(env.world, old(pathType), old(polyLength))
      ensures polyLength == 0 && pathType == PATHFIND_SHORTCUT | tag
      ensures pathPoints == ShortcutPoints(env.world, startPosition, actualEndPosition)
    {
      BuildShortcut(env);
      pathType := pathType | tag;
    }

    /** A walk the slope stopped is kept as an incomplete path. */
    method KeepWalked(env: Env, points: seq<DtPoint>)
      requires Valid() && 0 < |points| <= MAX_POINT_PATH_LENGTH
      modifies this`pathPoints, this`actualEndPosition, this`pathType
      ensures PointPathBuilt(env.world, old(pathType), old(polyLength))
      ensures pathPoints == GroundedPoints(env.world, points)
      ensures actualEndPosition == pathPoints[|pathPoints| - 1]
      ensures pathType == old(pathType) | PATHFIND_INCOMPLETE
    {
      var g := NormalizePath(env.world, seq(|points|, i requires 0 <= i < |points| => FromDetour(points[i])));
      assert g == GroundedPoints(env.world, points);
      pathPoints := g;
      actualEndPosition := pathPoints[|pathPoints| - 1];
      pathType := pathType | PATHFIND_INCOMPLETE;
    }

    /** The ladder of BuildPointPath applied to the points the corridor
        gave (see PointPathRungOf): add the end to a one-point path on a
        single polygon, keep a walk the slope stopped, fall back to the
        shortcut (typed no path, or short when the capacity is used up), or
        take the points. */
    method TakePoints(env: Env, status: Status, points: seq<DtPoint>, endPoint: DtPoint)
      requires Valid() && |points| <= MAX_POINT_PATH_LENGTH
      modifies this`pathPoints, this`actualEndPosition, this`pathType, this`polyLength
      ensures PointPathBuilt(env.world, old(pathType), old(polyLength))
      ensures RungTaken(env.world, status, points, endPoint, old(pathType), old(polyLength))
    {
      var rung := PointPathRungOf(polyLength, |points|, status, pointPathLimit);
      if rung == AppendEnd || rung == Accept {
        TakeAccepted(env, status, points, endPoint);
      } else {
        TakeFallback(env, status, points, endPoint);
      }
    }

    /** The rungs that take the points: a one-point path on a single polygon
        gets the end added, a path of two or more points below the
        capacity is taken as it is (FinishPoints). */
    method TakeAccepted(env: Env, status: Status, points: seq<DtPoint>, endPoint: DtPoint)
      requires Valid() && |points| <= MAX_POINT_PATH_LENGTH
      requires PointPathRungOf(polyLength, |points|, status, pointPathLimit) in {AppendEnd, Accept}
      modifies this`pathPoints, this`actualEndPosition, this`pathType, this`polyLength
      ensures PointPathBuilt(env.world, old(pathType), old(polyLength))
      ensures RungTaken(env.world, status, points, endPoint, old(pathType), old(polyLength))
    {
      if PointPathRungOf(polyLength, |points|, status, pointPathLimit) == AppendEnd {
        // First point is start position, append end position
        FinishPoints(env, [points[0], endPoint]);
      } else {
        FinishPoints(env, points);
      }
    }

    /** The rungs that do not take the points as they are: a walk the slope
        stopped is kept (KeepWalked), anything else falls back to the
        shortcut, typed no path or short (TaggedShortcut). */
    method TakeFallback(env: Env, status: Status, points: seq<DtPoint>, endPoint: DtPoint)
      requires Valid() && |points| <= MAX_POINT_PATH_LENGTH
      requires PointPathRungOf(polyLength, |points|, status, pointPathLimit) in {KeepPartial, NoPath, TooLong}
      modifies this`pathPoints, this`actualEndPosition, this`pathType, this`polyLength
      ensures PointPathBuilt(env.world, old(pathType), old(polyLength))
      ensures RungTaken(env.world, status, points, endPoint, old(pathType), old(polyLength))
    {
      match PointPathRungOf(polyLength, |points|, status, pointPathLimit)
      case KeepPartial =>
        // If its too steep, just return incomplete path.
        KeepWalked(env, points);
      case NoPath =>
        TaggedShortcut(env, PATHFIND_NOPATH);
      case TooLong =>
        TaggedShortcut(env, PATHFIND_SHORT);
    }

    /** The points of the current corridor: the mesh's straight path when
        straight paths are asked for, else the smoothing walk, with slope
        checks when they apply to the current type. Either way there are at
        most the point capacity of them. */
    method CorridorPoints(env: Env, startPoint: DtPoint, endPoint: DtPoint) returns (status: Status, points: seq<DtPoint>)
      requires Valid() && WellBehaved(env.query)
      ensures |points| <= MAX_POINT_PATH_LENGTH
      ensures useStraightPath ==>
                var sp := env.query.findStraightPath(startPoint, endPoint, pathPolyRefs[..polyLength], pointPathLimit);
                status == sp.status && points == CornerPositions(sp.corners)
      ensures !useStraightPath && polyLength == 0 ==> status == DT_SUCCESS && points == [startPoint]
      ensures !useStraightPath && status == DT_FAILURE ==> |points| == 0 || |points| == MAX_POINT_PATH_LENGTH
      ensures !useStraightPath && status == DT_FAILURE | DT_SLOPE_TOO_STEEP ==> SlopeCheckApplies(slopeCheck, pathType)
    {
      if useStraightPath {
        var sp := env.query.findStraightPath(startPoint, endPoint, pathPolyRefs[..polyLength], pointPathLimit);
        status, points := sp.status, CornerPositions(sp.corners);
      } else {
        ghost var stored;
        status, points, stored := FindSmoothPath(env, filter, SlopeCheckApplies(slopeCheck, pathType), startPoint, endPoint,
                                                 pathPolyRefs[..polyLength], pointPathLimit);
      }
    }

    /** BuildPointPath: turn the corridor into points, by the straight path
        of the mesh or by the smoothing walk, and act on them as TakePoints
        does. With ray casting on, there is no point path: the shortcut,
        typed no path. */
    method BuildPointPath(env: Env, startPoint: DtPoint, endPoint: DtPoint)
      returns (ghost status: Status, ghost pts: seq<DtPoint>)
      requires Valid() && WellBehaved(env.query)
      modifies this`pathPoints, this`actualEndPosition, this`pathType, this`polyLength
      ensures PointPathBuilt(env.world, old(pathType), old(polyLength))
      ensures useRaycast ==> pathType == PATHFIND_NOPATH && polyLength == 0
                             && pathPoints == ShortcutPoints(env.world, startPosition, actualEndPosition)
      ensures !useRaycast && useStraightPath ==>
                var sp := env.query.findStraightPath(startPoint, endPoint, pathPolyRefs[..old(polyLength)], pointPathLimit);
                status == sp.status && pts == CornerPositions(sp.corners)
      ensures !useRaycast ==> RungTaken(env.world, status, pts, endPoint, old(pathType), old(polyLength))
    {
      if useRaycast {
        // a ray cast builds no point path
        BuildShortcut(env);
        pathType := PATHFIND_NOPATH;
        return DT_FAILURE, [];
      }
      var st, points := CorridorPoints(env, startPoint, endPoint);
      status, pts := st, points;
      TakePoints(env, st, points, endPoint);
    }

    // -------------------------------------------------------------------
    // BuildPolyPath

    /** What every outcome of BuildPolyPath leaves: a valid planner with one
        to the point capacity of points, a typed path, the shortcut for a
        shortcut type, and, without ray casting, a plain normal type only
        for a corridor that ends on the end polygon. */
    predicate PolyPathBuilt(world: World, endPoly: PolyRef)
      reads this, pathPolyRefs
    {
      && Valid()
      && 1 <= |pathPoints| <= MAX_POINT_PATH_LENGTH
      && pathType != PATHFIND_BLANK
      && ShortcutShaped(world)
      && (!useRaycast && pathType == PATHFIND_NORMAL ==>
            0 < polyLength && pathPolyRefs[polyLength - 1] == endPoly)
    }

    /** The shortcut typed no path, the error exit of BuildPolyPath. */
    method NoPathShortcut(env: Env, endPoly: PolyRef)
      requires Valid()
      modifies this`polyLength, this`pathPoints, this`pathType
      ensures PolyPathBuilt(env.world, endPoly)
      ensures polyLength == 0 && pathType == PATHFIND_NOPATH
      ensures pathPoints == ShortcutPoints(env.world, startPosition, actualEndPosition)
    {
      BuildShortcut(env);
      pathType := PATHFIND_NOPATH;
    }

    /** Start and end found on the old corridor, the end after the start:
        the corridor becomes the stretch between them. */
    method CutCorridor(startIndex: nat, endIndex: nat)
      requires Valid() && startIndex < endIndex < polyLength
      modifies pathPolyRefs, this`polyLength
      ensures Valid()
      ensures polyLength == endIndex - startIndex + 1
      ensures pathPolyRefs[..polyLength] == old(pathPolyRefs[startIndex..endIndex + 1])
    {
      polyLength := endIndex - startIndex + 1;
      MoveRange(pathPolyRefs, 0, startIndex, polyLength);
    }

    /** The prefix kept when the start lies on the old corridor but the end
        does not: the corridor from the start on, about 80% of it
        (PrefixLength) moved to the front, and the point of its last
        polygon nearest the end. When the mesh has no such point, the
        polygon before is tried (RetryPrefix), when there is one; see the
        Findings for the case where there is none. */
    method KeepPrefix(q: NavQuery, startIndex: nat, endPoint: DtPoint)
      returns (prefix: nat, suffixEndPoint: Option<DtPoint>)
      requires Valid() && startIndex < polyLength
      modifies pathPolyRefs, this`polyLength
      ensures Valid() && polyLength == old(polyLength) - startIndex
      ensures var p := PrefixLength(old(polyLength) - startIndex);
              && 1 <= p && startIndex + p <= MAX_PATH_LENGTH
              && pathPolyRefs[..p] == old(pathPolyRefs[startIndex..startIndex + p])
              && prefix == (if q.closestPointOnPoly(old(pathPolyRefs[startIndex + p - 1]), endPoint).Some? || p <= 1
                            then p else p - 1)
      ensures 1 <= prefix && suffixEndPoint == q.closestPointOnPoly(pathPolyRefs[prefix - 1], endPoint)
      ensures var p := PrefixLength(old(polyLength) - startIndex);
              suffixEndPoint.None? <==>
                && q.closestPointOnPoly(old(pathPolyRefs[startIndex + p - 1]), endPoint).None?
                && (p <= 1 || q.closestPointOnPoly(old(pathPolyRefs[startIndex + p - 2]), endPoint).None?)
    {
      prefix := MovePrefix(startIndex);
      suffixEndPoint := q.closestPointOnPoly(pathPolyRefs[prefix - 1], endPoint);
      assert suffixEndPoint == q.closestPointOnPoly(old(pathPolyRefs[startIndex + prefix - 1]), endPoint);
      if suffixEndPoint.None? {
        // the last polygon may be an off-mesh connection: try the one before
        match RetryPrefix(prefix)
        case None =>
        case Some(shorter) =>
          prefix := shorter;
          suffixEndPoint := q.closestPointOnPoly(pathPolyRefs[prefix - 1], endPoint);
      }
    }

    /** The first step of KeepPrefix: the corridor from startIndex on, of
        which about 80% (PrefixLength) is moved to the front. */
    method MovePrefix(startIndex: nat) returns (prefix: nat)
      requires Valid() && startIndex < polyLength
      modifies pathPolyRefs, this`polyLength
      ensures Valid() && polyLength == old(polyLength) - startIndex
      ensures prefix == PrefixLength(polyLength) && 1 <= prefix && startIndex + prefix <= MAX_PATH_LENGTH
      ensures pathPolyRefs[..prefix] == old(pathPolyRefs[startIndex..startIndex + prefix])
      ensures pathPolyRefs[prefix - 1] == old(pathPolyRefs[startIndex + prefix - 1])
    {
      polyLength := polyLength - startIndex;
      // take ~80% of the original length
      prefix := PrefixLength(polyLength);
      MoveRange(pathPolyRefs, 0, startIndex, prefix);
    }

    /** The rest of the corridor from the mesh: a path from the prefix's
        last polygon to the end polygon, written over that polygon, in the
        room the prefix leaves. The prefix shares its last polygon with the
        suffix; an empty suffix leaves the prefix without it. */
    method AppendSuffix(q: NavQuery, prefix: nat, endPoly: PolyRef, fromPoint: DtPoint, endPoint: DtPoint)
      returns (suffix: seq<PolyRef>)
      requires Valid() && 1 <= prefix <= MAX_PATH_LENGTH && WellBehaved(q)
      modifies pathPolyRefs, this`polyLength
      ensures suffix == q.findPath(old(pathPolyRefs[prefix - 1]), endPoly, fromPoint, endPoint, filter,
                                   MAX_PATH_LENGTH - prefix).polys
      ensures Valid() && polyLength == prefix + |suffix| - 1
      ensures pathPolyRefs[..polyLength] == old(pathPolyRefs[..prefix - 1]) + suffix
    {
      var result := q.findPath(pathPolyRefs[prefix - 1], endPoly, fromPoint, endPoint, filter,
                               MAX_PATH_LENGTH - prefix);
      suffix := result.polys;
      WriteAt(pathPolyRefs, prefix - 1, suffix);
      // new path = prefix + suffix - overlap
      polyLength := prefix + |suffix| - 1;
      assert pathPolyRefs[..polyLength] == pathPolyRefs[..prefix - 1] + pathPolyRefs[prefix - 1..polyLength];
    }

    /** Start found on the old corridor, end not: keep a prefix of it
        (KeepPrefix) and ask the mesh for the rest (AppendSuffix). With no
        point to start the rest from, or with ray casting on, the result is
        the shortcut typed no path. A failed or empty suffix is kept as it
        is (the source only logs it). */
    method ExtendCorridor(env: Env, startIndex: nat, endPoly: PolyRef, endPoint: DtPoint)
      returns (done: bool, prefix: nat, suffix: seq<PolyRef>)
      requires Valid() && startIndex < polyLength && WellBehaved(env.query)
      modifies pathPolyRefs, this`polyLength, this`pathPoints, this`pathType
      ensures Valid()
      ensures done ==> PolyPathBuilt(env.world, endPoly) && polyLength == 0 && pathType == PATHFIND_NOPATH
                       && pathPoints == ShortcutPoints(env.world, startPosition, actualEndPosition)
      ensures var p := PrefixLength(old(polyLength) - startIndex);
              var first := env.query.closestPointOnPoly(old(pathPolyRefs[startIndex + p - 1]), endPoint);
              && 1 <= p && startIndex + p <= MAX_PATH_LENGTH
              && (done <==> useRaycast || (first.None? && (p <= 1 || env.query.closestPointOnPoly(
                                                   old(pathPolyRefs[startIndex + p - 2]), endPoint).None?)))
              && (!done ==> && pathType == old(pathType) && pathPoints == old(pathPoints)
                            && prefix == (if first.Some? then p else p - 1) && 1 <= prefix
                            && SuffixAppended(env.query, filter, old(pathPolyRefs[..]), startIndex, endPoly, endPoint,
                                              prefix, suffix, pathPolyRefs[..polyLength]))
    {
      ghost var refs, p := pathPolyRefs[..], PrefixLength(polyLength - startIndex);
      var suffixEndPoint;
      prefix, suffixEndPoint := KeepPrefix(env.query, startIndex, endPoint);
      ghost var moved := pathPolyRefs[..];
      if suffixEndPoint.None? {
        // suffixStartPoly is still invalid, error state
        NoPathShortcut(env, endPoly);
        return true, prefix, [];
      }
      if useRaycast {
        NoPathShortcut(env, endPoly);
        return true, prefix, [];
      }
      PrefixOfMoved(refs, moved, startIndex, p, prefix);
      suffix := AppendSuffix(env.query, prefix, endPoly, suffixEndPoint.value, endPoint);
      done := false;
    }


    /** The two-point path of a ray cast that found polygons: from the start
        to the point reached on the last polygon, both on the ground. When
        the ray was blocked, the point is 1% short of the hit and the path
        incomplete (tagged for a far start only); when it was clear, the
        point is the end and the path normal unless an end is far from the
        mesh. */
    predicate RayPathTaken(env: Env, rh: RayHit, startPoint: DtPoint, endPoint: DtPoint, startFar: bool, endFar: bool)
      requires 0 < |rh.polys|
      reads this
    {
      var last := rh.polys[|rh.polys| - 1];
      var reached := if rh.hit != FLT_MAX
                     then ClampToPoly(env.query, last, Lerp(startPoint, endPoint, rh.hit * 0.99))
                     else ClampToPoly(env.query, last, endPoint);
      && pathPoints == [Grounded(env.world, startPosition), Grounded(env.world, FromDetour(reached))]
      && pathType == if rh.hit != FLT_MAX then WithFarFromPolyFlags(PATHFIND_INCOMPLETE, startFar, false)
                     else if startFar || endFar then WithFarFromPolyFlags(PATHFIND_INCOMPLETE, startFar, endFar)
                     else PATHFIND_NORMAL
    }

    /** Neither end on the old corridor, ray casting on: a fresh corridor
        along the straight ray from the start. Without one, the shortcut
        typed no path. When the ray is blocked, a two-point path to just
        short of where it hit (walked back by 1% and moved onto the last
        polygon), typed incomplete; when it is clear, a two-point path to
        the end moved onto the last polygon, typed normal unless an end is
        far from the mesh. */
    method RaycastCorridor(env: Env, startPoly: PolyRef, endPoly: PolyRef, startPoint: DtPoint, endPoint: DtPoint,
                           startFar: bool, endFar: bool)
      requires Valid() && WellBehaved(env.query) && useRaycast
      modifies pathPolyRefs, this`polyLength, this`pathPoints, this`pathType
      ensures PolyPathBuilt(env.world, endPoly)
      ensures var rh := env.query.raycast(startPoly, startPoint, endPoint, filter, MAX_PATH_LENGTH);
              && (|rh.polys| == 0 || Failed(rh.status) ==>
                    polyLength == 0 && pathType == WithFarFromPolyFlags(PATHFIND_NOPATH, startFar, endFar)
                    && pathPoints == ShortcutPoints(env.world, startPosition, actualEndPosition))
              && (|rh.polys| > 0 && !Failed(rh.status) ==>
                    && polyLength == |rh.polys| && pathPolyRefs[..polyLength] == rh.polys
                    && RayPathTaken(env, rh, startPoint, endPoint, startFar, endFar))
    {
      // free and invalidate old path data
      polyLength := 0;
      pathPoints := [];
      var rh := env.query.raycast(startPoly, startPoint, endPoint, filter, MAX_PATH_LENGTH);
      WriteAt(pathPolyRefs, 0, rh.polys);
      polyLength := |rh.polys|;
      if polyLength == 0 || Failed(rh.status) {
        NoPathShortcut(env, endPoly);
        AddFarFromPolyFlags(startFar, endFar);
        return;
      }
      RayPath(env, endPoly, rh, startPoint, endPoint, startFar, endFar);
    }

    /** The two-point path of a ray cast that found polygons (RayPathTaken). */
    method RayPath(env: Env, endPoly: PolyRef, rh: RayHit, startPoint: DtPoint, endPoint: DtPoint, startFar: bool, endFar: bool)
      requires Valid() && useRaycast && 0 < polyLength == |rh.polys| && pathPolyRefs[..polyLength] == rh.polys
      modifies this`pathPoints, this`pathType
      ensures PolyPathBuilt(env.world, endPoly)
      ensures RayPathTaken(env, rh, startPoint, endPoint, startFar, endFar)
    {
      var last := pathPolyRefs[polyLength - 1];
      assert last == rh.polys[|rh.polys| - 1];
      // the ray reports FLT_MAX when nothing blocks it; walk back a bit from a hit
      var target := if rh.hit != FLT_MAX then Lerp(startPoint, endPoint, rh.hit * 0.99) else endPoint;
      var reached := ClampToPoly(env.query, last, target);
      pathPoints := NormalizePath(env.world, [startPosition, FromDetour(reached)]);
      if rh.hit != FLT_MAX {
        pathType := PATHFIND_INCOMPLETE;
        AddFarFromPolyFlags(startFar, false);
      } else if startFar || endFar {
        pathType := PATHFIND_INCOMPLETE;
        AddFarFromPolyFlags(startFar, endFar);
      } else {
        pathType := PATHFIND_NORMAL;
      }
    }

    /** Neither end on the old corridor, no ray casting: a fresh corridor
        from the mesh's path search. An empty or failed search ends in the
        shortcut typed no path. */
    method SearchCorridor(env: Env, startPoly: PolyRef, endPoly: PolyRef, startPoint: DtPoint, endPoint: DtPoint)
      returns (done: bool)
      requires Valid() && WellBehaved(env.query)
      modifies pathPolyRefs, this`polyLength, this`pathPoints, this`pathType
      ensures Valid()
      ensures var fp := env.query.findPath(startPoly, endPoly, startPoint, endPoint, filter, MAX_PATH_LENGTH);
              && (done <==> |fp.polys| == 0 || Failed(fp.status))
              && (done ==> PolyPathBuilt(env.world, endPoly) && polyLength == 0 && pathType == PATHFIND_NOPATH
                           && pathPoints == ShortcutPoints(env.world, startPosition, actualEndPosition))
              && (!done ==> polyLength == |fp.polys| && pathPolyRefs[..polyLength] == fp.polys
                            && pathPoints == [] && pathType == old(pathType))
    {
      // free and invalidate old path data
      polyLength := 0;
      pathPoints := [];
      var fp := env.query.findPath(startPoly, endPoly, startPoint, endPoint, filter, MAX_PATH_LENGTH);
      WriteAt(pathPolyRefs, 0, fp.polys);
      polyLength := |fp.polys|;
      done := polyLength == 0 || Failed(fp.status);
      if done {
        NoPathShortcut(env, endPoly);
      }
    }

    /** The common end of BuildPolyPath once a corridor is in place: with
        none, the shortcut typed no path; else the type is normal when the
        corridor reaches the end polygon and nothing made it incomplete
        before, incomplete otherwise, with the far-from-mesh tags, and the
        corridor is turned into points (BuildPointPath). */
    method FinishCorridor(env: Env, endPoly: PolyRef, startPoint: DtPoint, endPoint: DtPoint, startFar: bool, endFar: bool)
      returns (ghost classified: PathType)
      requires Valid() && WellBehaved(env.query)
      modifies this`pathPoints, this`actualEndPosition, this`pathType, this`polyLength
      ensures PolyPathBuilt(env.world, endPoly)
      ensures old(polyLength) == 0 ==> polyLength == 0 && pathType == PATHFIND_NOPATH
                                       && pathPoints == ShortcutPoints(env.world, startPosition, actualEndPosition)
      ensures old(polyLength) > 0 ==>
                && classified == WithFarFromPolyFlags(
                                   if pathPolyRefs[old(polyLength) - 1] == endPoly && old(pathType) & PATHFIND_INCOMPLETE == 0
                                   then PATHFIND_NORMAL else PATHFIND_INCOMPLETE, startFar, endFar)
                && PointPathBuilt(env.world, classified, old(polyLength))
    {
      if polyLength == 0 {
        NoPathShortcut(env, endPoly);
        return PATHFIND_NOPATH;
      }
      // by now we know what type of path we can get
      if pathPolyRefs[polyLength - 1] == endPoly && pathType & PATHFIND_INCOMPLETE == 0 {
        pathType := PATHFIND_NORMAL;
      } else {
        pathType := PATHFIND_INCOMPLETE;
      }
      AddFarFromPolyFlags(startFar, endFar);
      classified := pathType;
      ghost var status, pts := BuildPointPath(env, startPoint, endPoint);
    }


    /** Start and end on the same polygon (without ray casting): a corridor
        of that one polygon, typed normal unless an end is far from the
        mesh, turned into points. */
    method SamePolyPath(env: Env, poly: PolyRef, startPoint: DtPoint, endPoint: DtPoint, startFar: bool, endFar: bool)
      returns (ghost classified: PathType)
      requires Valid() && WellBehaved(env.query)
      modifies pathPolyRefs, this`pathPoints, this`actualEndPosition, this`pathType, this`polyLength
      ensures PolyPathBuilt(env.world, poly)
      ensures pathPolyRefs[0] == poly && (polyLength == 0 || polyLength == 1)
      ensures classified == if startFar || endFar then WithFarFromPolyFlags(PATHFIND_INCOMPLETE, startFar, endFar)
                            else PATHFIND_NORMAL
      ensures PointPathBuilt(env.world, classified, 1)
    {
      pathPolyRefs[0] := poly;
      polyLength := 1;
      if startFar || endFar {
        pathType := PATHFIND_INCOMPLETE;
        AddFarFromPolyFlags(startFar, endFar);
      } else {
        pathType := PATHFIND_NORMAL;
      }
      classified := pathType;
      ghost var status, pts := BuildPointPath(env, startPoint, endPoint);
    }

    /** The corridor part of BuildPolyPath: look for the start and the end
        polygons on the old corridor (FindInCorridor); with both, cut the
        stretch between them out (CutCorridor); with the start only, keep a
        prefix and extend it (ExtendCorridor); with neither, build a fresh
        corridor by ray cast (RaycastCorridor) or path search
        (SearchCorridor). Then type the path and build its points
        (FinishCorridor). */
    method CorridorPath(env: Env, startPoly: PolyRef, endPoly: PolyRef, startPoint: DtPoint, endPoint: DtPoint,
                        startFar: bool, endFar: bool)
      requires Valid() && WellBehaved(env.query)
      modifies pathPolyRefs, this`pathPoints, this`actualEndPosition, this`pathType, this`polyLength
      ensures PolyPathBuilt(env.world, endPoly)
    {
      var startIndex, startFound, endIndex, endFound := FindInCorridor(pathPolyRefs[..polyLength], startPoly, endPoly);
      if startFound && endFound {
        // the target did not move out of the old corridor: cut it out
        CutCorridor(startIndex, endIndex);
      } else if startFound {
        // the target moved out: keep a part of the old corridor
        var done, prefix, suffix := ExtendCorridor(env, startIndex, endPoly, endPoint);
        if done {
          return;
        }
      } else if useRaycast {
        RaycastCorridor(env, startPoly, endPoly, startPoint, endPoint, startFar, endFar);
        return;
      } else {
        var done := SearchCorridor(env, startPoly, endPoly, startPoint, endPoint);
        if done {
          return;
        }
      }
      ghost var classified := FinishCorridor(env, endPoly, startPoint, endPoint, startFar, endFar);
    }

    /** BuildPolyPath: find the polygons under both ends (GetPolyByLocation)
        and build the corridor and the points between them. A hole in the
        mesh at either end gives the shortcut: usable (normal, not using a
        path) when the agent flies or swims a water path, else no path
        unless ray casting, which goes on. An end more than 7 units from
        the mesh gives the usable shortcut when FarShortcut allows it, else
        moves the end onto its polygon and marks the path incomplete. Then
        the corridor: the single polygon (SamePolyPath) or CorridorPath.
        The ghost results are the two polygons found and their squared
        distances, and the end the corridor step heads for with the actual
        end as it stood then (see FarEndsTaken). */
    method BuildPolyPath(env: Env, startPos: Vec3, endPos: Vec3)
      returns (ghost startPoly: PolyRef, ghost endPoly: PolyRef, ghost startDistSqr: real, ghost endDistSqr: real,
               ghost target: DtPoint, ghost clampedEnd: Vec3)
      requires Valid() && WellBehaved(env.query)
      modifies pathPolyRefs, this`pathPoints, this`actualEndPosition, this`pathType, this`polyLength
      ensures PolyPathBuilt(env.world, endPoly)
      ensures (startPoly == INVALID_POLYREF || endPoly == INVALID_POLYREF) ==>
                var shortcut := ShortcutPoints(env.world, startPosition, old(actualEndPosition));
                && (HoleShortcutUsable(env.agent, AllInWater(env.world, shortcut)) ==>
                      pathType == PATHFIND_NORMAL | PATHFIND_NOT_USING_PATH && polyLength == 0 && pathPoints == shortcut)
                && (!HoleShortcutUsable(env.agent, AllInWater(env.world, shortcut)) && !useRaycast ==>
                      pathType == PATHFIND_NOPATH && polyLength == 0 && pathPoints == shortcut)
      ensures || (startPoly != INVALID_POLYREF && endPoly != INVALID_POLYREF)
              || (useRaycast && !HoleShortcutUsable(env.agent, AllInWater(env.world,
                                  ShortcutPoints(env.world, startPosition, old(actualEndPosition))))) ==>
                FarEndsTaken(env.world, env, startPoly, endPoly, startDistSqr, endDistSqr, startPos, endPos,
                             old(actualEndPosition), target, clampedEnd)
    {
      var startPoint, endPoint := ToDetour(startPos), ToDetour(endPos);
      var sp, ds := GetPolyByLocation(env.query, startPoint);
      var ep, de := GetPolyByLocation(env.query, endPoint);
      startPoly, endPoly, startDistSqr, endDistSqr := sp, ep, ds, de;
      target, clampedEnd := endPoint, actualEndPosition;
      pathType := PATHFIND_NORMAL;

      // a hole in the mesh: the shortcut, with the flying and swimming exception
      if sp == INVALID_POLYREF || ep == INVALID_POLYREF {
        BuildShortcut(env);
        var waterPath := IsWaterPath(env.world, pathPoints);
        if HoleShortcutUsable(env.agent, waterPath) {
          pathType := PATHFIND_NORMAL | PATHFIND_NOT_USING_PATH;
          return;
        }
        // a ray cast does not need the end polygon
        if !useRaycast {
          pathType := PATHFIND_NOPATH;
          return;
        }
      }

      target, clampedEnd := FarEndsAndCorridor(env, sp, ep, ds, de, startPos, endPos);
    }

    /** What the far-end step leaves, given the polygons found with their
        squared distances, the positions asked for and the actual end
        before it. With an end far from the mesh and FarShortcut allowing
        it: the usable shortcut, tagged with the far ends. With an end far
        from the mesh otherwise: the end moved to the end polygon's point
        nearest it, when the mesh has one (clampedEnd is the actual end then,
        target the end the corridor step heads for). Start and end on the
        same polygon without ray casting: the corridor of that polygon, its
        points typed incomplete and tagged when an end is far, else normal. */
    predicate FarEndsTaken(world: World, env: Env, sp: PolyRef, ep: PolyRef, ds: real, de: real,
                           startPos: Vec3, endPos: Vec3, oldActualEnd: Vec3, target: DtPoint, clampedEnd: Vec3)
      reads this, pathPolyRefs
    {
      var startFar, endFar := FarFromPoly(ds), FarFromPoly(de);
      var shortcut := (startFar || endFar) && FarShortcut(env, startPos, endPos);
      var closest := env.query.closestPointOnPoly(ep, ToDetour(endPos));
      && (shortcut ==> pathType == WithFarFromPolyFlags(PATHFIND_NORMAL | PATHFIND_NOT_USING_PATH, startFar, endFar)
                       && polyLength == 0 && pathPoints == ShortcutPoints(world, startPosition, oldActualEnd))
      && (!shortcut && (startFar || endFar) && closest.Some? ==>
            target == closest.value && clampedEnd == FromDetour(closest.value))
      && (!shortcut && !((startFar || endFar) && closest.Some?) ==>
            target == ToDetour(endPos) && clampedEnd == oldActualEnd)
      && (!shortcut && sp == ep && !useRaycast ==>
            && pathPolyRefs.Length == MAX_PATH_LENGTH && pathPolyRefs[0] == ep && polyLength <= 1
            && PointPathBuilt(world, if startFar || endFar then WithFarFromPolyFlags(PATHFIND_INCOMPLETE, startFar, endFar)
                                     else PATHFIND_NORMAL, 1))
    }

    /** An end far from the mesh without the shortcut: the end moved to the
        end polygon's point nearest it, when the mesh has one, and the path
        marked incomplete with the far ends. */
    method ClampFarEnd(env: Env, ep: PolyRef, endPoint: DtPoint, startFar: bool, endFar: bool) returns (target: DtPoint)
      modifies this`actualEndPosition, this`pathType
      ensures pathType == WithFarFromPolyFlags(PATHFIND_INCOMPLETE, startFar, endFar)
      ensures var closest := env.query.closestPointOnPoly(ep, endPoint);
              && (closest.Some? ==> target == closest.value && actualEndPosition == FromDetour(closest.value))
              && (closest.None? ==> target == endPoint && actualEndPosition == old(actualEndPosition))
    {
      target := endPoint;
      var closest := env.query.closestPointOnPoly(ep, endPoint);
      if closest.Some? {
        target := closest.value;
        actualEndPosition := FromDetour(target);
      }
      pathType := PATHFIND_INCOMPLETE;
      AddFarFromPolyFlags(startFar, endFar);
    }

    /** The rest of BuildPolyPath, from the polygons found and their squared
        distances on: an end far from the mesh (FarEndsTaken), then the
        corridor. */
    method FarEndsAndCorridor(env: Env, sp: PolyRef, ep: PolyRef, ds: real, de: real, startPos: Vec3, endPos: Vec3)
      returns (ghost target: DtPoint, ghost clampedEnd: Vec3)
      requires Valid() && WellBehaved(env.query)
      modifies pathPolyRefs, this`pathPoints, this`actualEndPosition, this`pathType, this`polyLength
      ensures PolyPathBuilt(env.world, ep)
      ensures FarEndsTaken(env.world, env, sp, ep, ds, de, startPos, endPos, old(actualEndPosition), target, clampedEnd)
    {
      var startPoint, endPoint := ToDetour(startPos), ToDetour(endPos);
      var startFar, endFar := FarFromPoly(ds), FarFromPoly(de);
      if startFar || endFar {
        if FarShortcut(env, startPos, endPos) {
          BuildShortcut(env);
          pathType := PATHFIND_NORMAL | PATHFIND_NOT_USING_PATH;
          AddFarFromPolyFlags(startFar, endFar);
          return endPoint, actualEndPosition;
        }
        endPoint := ClampFarEnd(env, ep, endPoint, startFar, endFar);
      }
      target, clampedEnd := endPoint, actualEndPosition;

      if sp == ep && !useRaycast {
        ghost var classified := SamePolyPath(env, sp, startPoint, endPoint, startFar, endFar);
      } else {
        CorridorPath(env, sp, ep, startPoint, endPoint, startFar, endFar);
      }
    }


    // -------------------------------------------------------------------
    // CalculatePath

    /** The whole path built: a valid planner with one to the point capacity
        of points, typed, the shortcut for a shortcut type. */
    predicate PathBuilt(world: World)
      reads this
    {
      Valid() && 1 <= |pathPoints| <= MAX_POINT_PATH_LENGTH && pathType != PATHFIND_BLANK && ShortcutShaped(world)
    }

    /** CalculatePath: refuse an end that is not a valid map coordinate,
        changing nothing; else record both ends and the forcing flag, and
        build the path. Without a mesh, for a unit that ignores path
        finding, or with either end on a mesh tile that is not loaded, the
        path is the shortcut, typed normal and not using a path; else the
        filter is brought up to date and BuildPolyPath builds it. */
    method CalculatePath(env: Env, start: Vec3, dest: Vec3, forceDest: bool) returns (ok: bool)
      requires Valid() && WellBehaved(env.query)
      modifies pathPolyRefs, this`pathPoints, this`actualEndPosition, this`pathType, this`polyLength,
               this`startPosition, this`endPosition, this`forceDestination, this`filter
      ensures ok <==> env.world.validMapCoord(dest) && env.world.validMapCoord(start)
      ensures !ok ==> unchanged(this) && unchanged(pathPolyRefs)
      ensures ok ==> PathBuilt(env.world)
                     && startPosition == start && endPosition == dest && forceDestination == forceDest
      ensures ok && (!hasNavMesh || (env.agent.IsUnit() && env.agent.ignoresPathfinding)
                     || !HaveTile(env.query, start) || !HaveTile(env.query, dest)) ==>
                pathType == PATHFIND_NORMAL | PATHFIND_NOT_USING_PATH && polyLength == 0
                && pathPoints == ShortcutPoints(env.world, start, dest) && actualEndPosition == dest
                && filter == old(filter)
      ensures ok && hasNavMesh && !(env.agent.IsUnit() && env.agent.ignoresPathfinding)
              && HaveTile(env.query, start) && HaveTile(env.query, dest) ==>
                filter == Filter(UpdatedIncludeFlags(env, old(filter.includeFlags)), old(filter.excludeFlags))
    {
      if !env.world.validMapCoord(dest) || !env.world.validMapCoord(start) {
        return false;
      }
      PlanPath(env, start, dest, forceDest);
      return true;
    }

    /** The shortcut CalculatePath takes when the mesh cannot be used,
        typed normal and not using a path. */
    method UsableShortcut(env: Env)
      requires Valid()
      modifies this`polyLength, this`pathPoints, this`pathType
      ensures PathBuilt(env.world)
      ensures pathType == PATHFIND_NORMAL | PATHFIND_NOT_USING_PATH && polyLength == 0
      ensures pathPoints == ShortcutPoints(env.world, startPosition, actualEndPosition)
    {
      BuildShortcut(env);
      pathType := PATHFIND_NORMAL | PATHFIND_NOT_USING_PATH;
    }

    /** CalculatePath once both ends are known to be valid map coordinates. */
    method PlanPath(env: Env, start: Vec3, dest: Vec3, forceDest: bool)
      requires Valid() && WellBehaved(env.query)
      modifies pathPolyRefs, this`pathPoints, this`actualEndPosition, this`pathType, this`polyLength,
               this`startPosition, this`endPosition, this`forceDestination, this`filter
      ensures PathBuilt(env.world)
      ensures startPosition == start && endPosition == dest && forceDestination == forceDest
      ensures (!hasNavMesh || (env.agent.IsUnit() && env.agent.ignoresPathfinding)
               || !HaveTile(env.query, start) || !HaveTile(env.query, dest)) ==>
                pathType == PATHFIND_NORMAL | PATHFIND_NOT_USING_PATH && polyLength == 0
                && pathPoints == ShortcutPoints(env.world, start, dest) && actualEndPosition == dest
                && filter == old(filter)
      ensures hasNavMesh && !(env.agent.IsUnit() && env.agent.ignoresPathfinding)
              && HaveTile(env.query, start) && HaveTile(env.query, dest) ==>
                filter == Filter(UpdatedIncludeFlags(env, old(filter.includeFlags)), old(filter.excludeFlags))
    {
      endPosition, actualEndPosition := dest, dest;
      startPosition := start;
      forceDestination := forceDest;

      // make sure the mesh works, and that both ends lie on loaded tiles
      if !hasNavMesh || (env.agent.IsUnit() && env.agent.ignoresPathfinding)
         || !HaveTile(env.query, start) || !HaveTile(env.query, dest) {
        UsableShortcut(env);
        return;
      }

      UpdateFilter(env);
      ghost var startPoly, endPoly, startDistSqr, endDistSqr, target, clampedEnd := BuildPolyPath(env, start, dest);
    }

    /** CalculatePath from where the agent stands. */
    method CalculatePathFrom(env: Env, dest: Vec3, forceDest: bool) returns (ok: bool)
      requires Valid() && WellBehaved(env.query)
      modifies pathPolyRefs, this`pathPoints, this`actualEndPosition, this`pathType, this`polyLength,
               this`startPosition, this`endPosition, this`forceDestination, this`filter
      ensures ok <==> env.world.validMapCoord(dest) && env.world.validMapCoord(env.agent.position)
      ensures !ok ==> unchanged(this) && unchanged(pathPolyRefs)
      ensures ok ==> PathBuilt(env.world) && startPosition == env.agent.position && endPosition == dest
    {
      ok := CalculatePath(env, env.agent.position, dest, forceDest);
    }

  }
}
