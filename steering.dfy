/** Walking a polygon corridor: choosing the polygon nearest a point, the
    corner to steer to, stepping over off-mesh links, and the smoothing loop
    that turns a corridor into a point path (FindSmoothPath). */
module Steering {
  import opened Geometry
  import opened Flags
  import opened Corridor
  import opened Services

  /** Capacity of a point path (declared in PathGenerator.h). */
  const MAX_POINT_PATH_LENGTH: nat := 74

  /** How close a corner may be before the walk looks past it, and how close
      the walk must come to the end or to a link (declared in PathGenerator.h). */
  const SMOOTH_PATH_SLOP: real := 0.3

  /** Corners one steering query asks for. */
  const MAX_STEER_POINTS: nat := 3

  // ---------------------------------------------------------------------
  // GetPathPolyByPosition

  /** Squared distance from point to polygon ref, when the library can
      place a closest point on it. */
  function PolyDistSqr(q: NavQuery, ref: PolyRef, point: DtPoint): Option<real>
  {
    match q.closestPointOnPoly(ref, point)
    case None => None
    case Some(c) => Some(DtDistSqr(point, c))
  }

  /** A distance close enough to stop scanning. */
  predicate Close(d: Option<real>) { d.Some? && d.value < 1.0 }

  /** How many entries the scan looks at: up to and including the first close
      one, or all of them. */
  function ScanLength(ds: seq<Option<real>>): (n: nat)
    ensures n <= |ds|
    ensures forall i :: 0 <= i < n - 1 ==> !Close(ds[i])
    ensures n < |ds| ==> 0 < n && Close(ds[n - 1])
    ensures |ds| > 0 ==> n > 0
  {
    if ds == [] then 0
    else if Close(ds[0]) then 1
    else 1 + ScanLength(ds[1..])
  }

  /** The scan length is pinned down by the first close entry. */
  lemma {:induction false} ScanLengthAt(ds: seq<Option<real>>, k: nat)
    requires k <= |ds|
    requires forall i :: 0 <= i < k ==> !Close(ds[i])
    requires k < |ds| ==> Close(ds[k])
    ensures ScanLength(ds) == if k < |ds| then k + 1 else |ds|
    decreases k
  {
    if k > 0 {
      assert !Close(ds[0]);
      assert forall i :: 0 <= i < k - 1 ==> ds[1..][i] == ds[i + 1];
      ScanLengthAt(ds[1..], k - 1);
    }
  }

  /** The distances of the corridor's polygons to a point. */
  function Dists(q: NavQuery, polys: seq<PolyRef>, point: DtPoint): (ds: seq<Option<real>>)
    ensures |ds| == |polys|
    ensures forall i :: 0 <= i < |polys| ==> ds[i] == PolyDistSqr(q, polys[i], point)
  {
    seq(|polys|, i requires 0 <= i < |polys| => PolyDistSqr(q, polys[i], point))
  }

  /** The polygon of the corridor nearest to point, among those looked at
      before one closer than 1 (squared) turned up; the first of equals wins.
      It is returned only when its squared distance is below 3, and the
      squared distance is reported (FLT_MAX when no polygon could be
      measured). An empty corridor yields no polygon. */
  method GetPathPolyByPosition(q: NavQuery, polys: seq<PolyRef>, point: DtPoint)
    returns (nearest: PolyRef, distSqr: real)
    ensures polys == [] ==> nearest == INVALID_POLYREF
    ensures var ds, n := Dists(q, polys, point), ScanLength(Dists(q, polys, point));
      && (forall i :: 0 <= i < n && ds[i].Some? ==> distSqr <= ds[i].value)
      && (distSqr == FLT_MAX || exists i :: 0 <= i < n && ds[i] == Some(distSqr))
      && (distSqr < 3.0 ==> exists i :: 0 <= i < n && ds[i] == Some(distSqr) && polys[i] == nearest
                                        && forall j :: 0 <= j < i && ds[j].Some? ==> ds[j].value > distSqr)
      && (distSqr >= 3.0 ==> nearest == INVALID_POLYREF)
  {
    ghost var ds := Dists(q, polys, point);
    if |polys| == 0 {
      return INVALID_POLYREF, FLT_MAX;
    }
    nearest := INVALID_POLYREF;
    var minDist := FLT_MAX;
    ghost var best: int := -1;
    ghost var scanned := 0;
    var i := 0;
    while i < |polys|
      invariant 0 <= i <= |polys| && scanned == i
      invariant forall j :: 0 <= j < i ==> !Close(ds[j])
      invariant forall j :: 0 <= j < i && ds[j].Some? ==> minDist <= ds[j].value
      invariant -1 <= best < i
      invariant best < 0 ==> minDist == FLT_MAX && nearest == INVALID_POLYREF
      invariant best >= 0 ==> ds[best] == Some(minDist) && polys[best] == nearest
                              && forall j :: 0 <= j < best && ds[j].Some? ==> ds[j].value > minDist
      invariant minDist >= 1.0
    {
      var closest := q.closestPointOnPoly(polys[i], point);
      if closest.None? {
        i := i + 1;
        scanned := i;
        continue;
      }
      var d := DtDistSqr(point, closest.value);
      assert ds[i] == Some(d);
      if d < minDist {
        minDist := d;
        nearest := polys[i];
        best := i;
      }
      if minDist < 1.0 { // close enough for us
        scanned := i + 1;
        break;
      }
      i := i + 1;
      scanned := i;
    }
    ScanLengthAt(ds, if scanned > i then i else |polys|);
    distSqr := minDist;
    if !(minDist < 3.0) {
      nearest := INVALID_POLYREF;
    }
  }

  // ---------------------------------------------------------------------
  // GetSteerTarget

  /** The corner the walk can steer to: an off-mesh link, or one outside the
      slop circle around the start. */
  predicate Steerable(c: Corner, startPos: DtPoint, minTargetDist: real)
  {
    c.flags & DT_STRAIGHTPATH_OFFMESH_CONNECTION != 0
    || !InRangeYZX(c.pos, startPos, minTargetDist, 1000.0)
  }

  /** Index of the first steerable corner, |corners| when there is none. */
  function SteerIndex(corners: seq<Corner>, startPos: DtPoint, minTargetDist: real): (k: nat)
    ensures k <= |corners|
    ensures k < |corners| ==> Steerable(corners[k], startPos, minTargetDist)
    ensures forall i :: 0 <= i < k ==> !Steerable(corners[i], startPos, minTargetDist)
  {
    if corners == [] then 0
    else if Steerable(corners[0], startPos, minTargetDist) then 0
    else 1 + SteerIndex(corners[1..], startPos, minTargetDist)
  }

  /** The steer target of GetSteerTarget, with the corner's elevation
      replaced by the start's. */
  function SteerTarget(q: NavQuery, startPos: DtPoint, endPos: DtPoint, minTargetDist: real,
                       path: seq<PolyRef>): (r: Option<Corner>)
    ensures r.Some? ==> r.value.pos.d1 == startPos.d1
  {
    var sp := q.findStraightPath(startPos, endPos, path, MAX_STEER_POINTS);
    if |sp.corners| == 0 || Failed(sp.status) then None
    else
      var k := SteerIndex(sp.corners, startPos, minTargetDist);
      if k >= |sp.corners| then None
      else
        var c := sp.corners[k];
        Some(Corner(WithElevation(c.pos, startPos.d1), c.flags, c.ref))
  }

  /** GetSteerTarget: ask for at most three corners ahead and take the first
      that is an off-mesh link or lies outside the slop circle. */
  method GetSteerTarget(q: NavQuery, startPos: DtPoint, endPos: DtPoint, minTargetDist: real,
                        path: seq<PolyRef>)
    returns (steer: Option<Corner>)
    ensures steer == SteerTarget(q, startPos, endPos, minTargetDist, path)
    ensures steer.Some? ==>
      var cs := q.findStraightPath(startPos, endPos, path, MAX_STEER_POINTS).corners;
      exists i :: 0 <= i < |cs| && Steerable(cs[i], startPos, minTargetDist)
                  && steer.value.flags == cs[i].flags && steer.value.ref == cs[i].ref
  {
    var sp := q.findStraightPath(startPos, endPos, path, MAX_STEER_POINTS);
    if |sp.corners| == 0 || Failed(sp.status) {
      return None;
    }
    // Find vertex far enough to steer to.
    var ns := 0;
    while ns < |sp.corners|
      invariant 0 <= ns <= |sp.corners|
      invariant forall i :: 0 <= i < ns ==> !Steerable(sp.corners[i], startPos, minTargetDist)
    {
      if Steerable(sp.corners[ns], startPos, minTargetDist) {
        break;
      }
      ns := ns + 1;
    }
    SteerIndexAt(sp.corners, startPos, minTargetDist, ns);
    if ns >= |sp.corners| {
      return None;
    }
    var c := sp.corners[ns];
    steer := Some(Corner(WithElevation(c.pos, startPos.d1), c.flags, c.ref));
  }

  /** The first steerable index is pinned down by its defining properties. */
  lemma {:induction false} SteerIndexAt(corners: seq<Corner>, startPos: DtPoint, minTargetDist: real, k: nat)
    requires k <= |corners|
    requires forall i :: 0 <= i < k ==> !Steerable(corners[i], startPos, minTargetDist)
    requires k < |corners| ==> Steerable(corners[k], startPos, minTargetDist)
    ensures SteerIndex(corners, startPos, minTargetDist) == k
    decreases k
  {
    if k > 0 {
      assert forall i :: 0 <= i < k - 1 ==> corners[1..][i] == corners[i + 1];
      SteerIndexAt(corners[1..], startPos, minTargetDist, k - 1);
    }
  }

  // ---------------------------------------------------------------------
  // Advancing over an off-mesh link

  /** How many corridor entries the walk drops to get over the link to
      steerRef: none when the corridor starts at steerRef; otherwise through
      the first later occurrence of steerRef, or the whole corridor. */
  function OffMeshSkip(polys: seq<PolyRef>, steerRef: PolyRef): (npos: nat)
    requires polys != []
    ensures npos <= |polys|
    ensures npos == 0 <==> polys[0] == steerRef
    ensures 0 < npos < |polys| ==> polys[npos - 1] == steerRef
    ensures npos > 0 ==> forall i :: 0 <= i < npos - 1 ==> polys[i] != steerRef
  {
    if polys[0] == steerRef then 0 else SkipFrom(polys, steerRef, 1)
  }

  /** The scan of OffMeshSkip from index k on: the count just past the first
      occurrence at or after k, or |polys|. */
  function SkipFrom(polys: seq<PolyRef>, steerRef: PolyRef, k: nat): (npos: nat)
    requires 0 < k <= |polys|
    ensures k <= npos <= |polys|
    ensures npos < |polys| ==> k < npos && polys[npos - 1] == steerRef
    ensures forall i :: k <= i < npos - 1 ==> polys[i] != steerRef
    decreases |polys| - k
  {
    if k == |polys| then k
    else if polys[k] == steerRef then k + 1
    else SkipFrom(polys, steerRef, k + 1)
  }

  /** The walk over an off-mesh link (the loop that advances the corridor and
      the shift that drops the passed entries): returns how many entries were
      dropped, and the polygons before and at the link. */
  method AdvancePastOffMesh(polys: array<PolyRef>, npolys: nat, steerRef: PolyRef)
    returns (npos: nat, prevRef: PolyRef, polyRef: PolyRef)
    requires 0 < npolys <= polys.Length
    modifies polys
    ensures npos == OffMeshSkip(old(polys[..npolys]), steerRef)
    ensures npos == 0 ==> prevRef == INVALID_POLYREF && polyRef == old(polys[0])
    ensures npos > 0 ==> polyRef == old(polys[npos - 1])
                         && prevRef == old(polys[if npos >= 2 then npos - 2 else 0])
    ensures polys[..] == Moved(old(polys[..]), 0, npos, npolys - npos)
  {
    ghost var p := polys[..npolys];
    prevRef := INVALID_POLYREF;
    polyRef := polys[0];
    npos := 0;
    while npos < npolys && polyRef != steerRef
      invariant 0 <= npos <= npolys
      invariant npos == 0 ==> prevRef == INVALID_POLYREF && polyRef == polys[0]
      invariant npos > 0 ==> polyRef == polys[npos - 1] && prevRef == polys[if npos >= 2 then npos - 2 else 0]
      invariant forall i :: 0 <= i < npos - 1 ==> polys[i] != steerRef
      invariant npos >= 1 ==> polys[0] != steerRef
    {
      prevRef := polyRef;
      polyRef := polys[npos];
      npos := npos + 1;
    }
    assert p[0] == polys[0];
    if polys[0] == steerRef {
      assert npos == 0;
    } else {
      assert npos >= 1;
      SkipFromAt(p, steerRef, npos);
    }
    CopyForward(polys, 0, npos, npolys - npos);
  }

  /** The skip count is pinned down by where the scan stops. */
  lemma SkipFromAt(polys: seq<PolyRef>, steerRef: PolyRef, npos: nat)
    requires 0 < npos <= |polys| && polys[0] != steerRef
    requires forall i :: 0 <= i < npos - 1 ==> polys[i] != steerRef
    requires npos < |polys| ==> polys[npos - 1] == steerRef
    ensures OffMeshSkip(polys, steerRef) == npos
  {
    SkipFromFrom(polys, steerRef, 1, npos);
  }

  lemma {:induction false} SkipFromFrom(polys: seq<PolyRef>, steerRef: PolyRef, k: nat, npos: nat)
    requires 0 < k <= npos <= |polys| && polys[k - 1] != steerRef
    requires forall i :: k - 1 < i < npos - 1 ==> polys[i] != steerRef
    requires npos < |polys| ==> polys[npos - 1] == steerRef
    ensures SkipFrom(polys, steerRef, k) == npos
    decreases |polys| - k
  {
    if k < |polys| && polys[k] != steerRef {
      SkipFromFrom(polys, steerRef, k + 1, npos);
    }
  }

  // ---------------------------------------------------------------------
  // FindSmoothPath

  /** The polygon's surface height under p, plus the half-unit lift the walk
      keeps above the mesh; the height stays when the library finds none. */
  function Lifted(q: NavQuery, ref: PolyRef, p: DtPoint): (r: DtPoint)
    ensures FromDetour(r).x == FromDetour(p).x && FromDetour(r).y == FromDetour(p).y
    ensures q.polyHeight(ref, p).None? ==> r.d1 == p.d1 + 0.5
    ensures q.polyHeight(ref, p).Some? ==> r.d1 == q.polyHeight(ref, p).value + 0.5
  {
    var h := q.polyHeight(ref, p);
    WithElevation(p, (if h.Some? then h.value else p.d1) + 0.5)
  }

  /** How one step of the smoothing walk ends: the walk goes on, stops
      (end reached or no corner left), a library query failed, or the slope
      forbids the step. */
  datatype StepOutcome = Continue | Stop | QueryFailed | TooSteep

  /** The part of a smoothing step near a corner: at the end of the path
      the walk stops on the target; at an off-mesh link the corridor is
      advanced past it, its start point is stored and the walk goes on from
      its end point, lifted onto the polygon there (a failed height query
      fails the walk). Elsewhere nothing changes. */
  method Arrive(q: NavQuery, polys: array<PolyRef>, npolys: nat, steer: Corner, endOfPath: bool, offMeshConnection: bool,
                iterPos: DtPoint, targetPos: DtPoint, pts: seq<DtPoint>)
    returns (outcome: StepOutcome, npolys': nat, iterPos': DtPoint, pts': seq<DtPoint>)
    requires 0 < npolys <= polys.Length
    modifies polys
    ensures outcome == Continue || outcome == Stop || outcome == QueryFailed
    ensures npolys' <= npolys
    ensures outcome == Stop ==> iterPos' == targetPos && pts' == pts + [targetPos]
    ensures outcome == QueryFailed ==> pts' == pts
    ensures outcome == Continue ==> pts' == pts || (|pts'| == |pts| + 1 && pts'[..|pts|] == pts)
    ensures !(endOfPath || offMeshConnection) || !InRangeYZX(iterPos, steer.pos, SMOOTH_PATH_SLOP, 1.0) ==>
              outcome == Continue && npolys' == npolys && iterPos' == iterPos && pts' == pts
  {
    outcome, npolys', iterPos', pts' := Continue, npolys, iterPos, pts;
    if endOfPath && InRangeYZX(iterPos, steer.pos, SMOOTH_PATH_SLOP, 1.0) {
      // Reached end of path.
      iterPos' := targetPos;
      pts' := pts + [iterPos'];
      outcome := Stop;
    } else if offMeshConnection && InRangeYZX(iterPos, steer.pos, SMOOTH_PATH_SLOP, 1.0) {
      // Advance the path up to and over the off-mesh connection.
      var npos, prevRef, polyRef := AdvancePastOffMesh(polys, npolys, steer.ref);
      npolys' := npolys - npos;
      var conn := q.offMeshEndPoints(prevRef, polyRef);
      if conn.Some? {
        pts' := pts + [conn.value.0];
        // Move position at the other side of the off-mesh link.
        var h := q.polyHeight(polys[0], conn.value.1);
        if h.None? {
          return QueryFailed, npolys', iterPos', pts;
        }
        iterPos' := WithElevation(conn.value.1, h.value + 0.5);
      }
    }
  }

  /** One step of the smoothing walk: steer, move along the surface, follow
      the corridor, check the slope, then handle the end of the path or an
      off-mesh link, and store the new position if there is room. Points are
      only ever appended, and at most maxSmoothPathSize are held. */
  method SmoothStep(env: Env, filter: Filter, canCheckSlope: bool, polys: array<PolyRef>, npolys: nat,
                    iterPos: DtPoint, targetPos: DtPoint, pts: seq<DtPoint>, maxSmoothPathSize: nat)
    returns (outcome: StepOutcome, npolys': nat, iterPos': DtPoint, pts': seq<DtPoint>)
    requires 0 < npolys <= polys.Length == MAX_PATH_LENGTH
    requires |pts| < maxSmoothPathSize
    requires WellBehaved(env.query)
    modifies polys
    ensures npolys' <= MAX_PATH_LENGTH
    ensures |pts| <= |pts'| <= maxSmoothPathSize && pts'[..|pts|] == pts
    ensures outcome == Continue ==> |pts| < |pts'|
    ensures outcome == QueryFailed || outcome == TooSteep ==> pts' == pts
    ensures outcome == TooSteep ==> canCheckSlope
  {
    var q := env.query;
    npolys', iterPos', pts' := npolys, iterPos, pts;
    var steer := GetSteerTarget(q, iterPos, targetPos, SMOOTH_PATH_SLOP, polys[..npolys]);
    if steer.None? {
      return Stop, npolys', iterPos', pts';
    }
    var steerPos := steer.value.pos;
    var endOfPath := steer.value.flags & DT_STRAIGHTPATH_END != 0;
    var offMeshConnection := steer.value.flags & DT_STRAIGHTPATH_OFFMESH_CONNECTION != 0;

    var moveTgt := env.world.stepTarget(iterPos, steerPos, endOfPath || offMeshConnection);
    var moved := q.moveAlongSurface(polys[0], iterPos, moveTgt, filter, MAX_VISIT_POLY);
    if Failed(moved.status) {
      return QueryFailed, npolys', iterPos', pts';
    }
    npolys' := FixupCorridor(polys, npolys, MAX_PATH_LENGTH, moved.visited);
    iterPos' := Lifted(q, polys[0], moved.pos);

    if canCheckSlope && !IsSwimmableSegment(env, FromDetour(iterPos'), FromDetour(steerPos), true)
       && !IsWalkableClimb(env.world, FromDetour(iterPos'), FromDetour(steerPos), env.agent.collisionHeight) {
      return TooSteep, npolys', iterPos', pts';
    }

    // Handle end of path and off-mesh links when close enough.
    var arrival;
    arrival, npolys', iterPos', pts' := Arrive(q, polys, npolys', steer.value, endOfPath, offMeshConnection,
                                              iterPos', targetPos, pts');
    if arrival != Continue {
      return arrival, npolys', iterPos', pts';
    }

    // Store results.
    if |pts'| < maxSmoothPathSize {
      pts' := pts' + [iterPos'];
    }
    outcome := Continue;
  }

  /** FindSmoothPath: walk the corridor from its start a bounded step at a
      time, steering to the next corner, following the walked polygons
      (FixupCorridor) and crossing off-mesh links, storing one point per
      step until the end is reached, no corner is left, or maxSmoothPathSize
      points are stored. The first point is stored even when the capacity is
      zero. A step that the slope forbids ends the walk with the slope
      status and without its last stored point; a failed library query ends
      it with no points at all. */
  method FindSmoothPath(env: Env, filter: Filter, canCheckSlope: bool, startPos: DtPoint, endPos: DtPoint,
                        polyPath: seq<PolyRef>, maxSmoothPathSize: nat)
    returns (status: Status, points: seq<DtPoint>, ghost stored: seq<DtPoint>)
    requires |polyPath| <= MAX_PATH_LENGTH && maxSmoothPathSize <= MAX_POINT_PATH_LENGTH
    requires WellBehaved(env.query)
    ensures status == DT_SUCCESS || status == DT_FAILURE || status == DT_FAILURE | DT_SLOPE_TOO_STEEP
    ensures |points| <= |stored| <= (if maxSmoothPathSize == 0 then 1 else maxSmoothPathSize)
    ensures |points| > 0 && |polyPath| > 1 ==>
              env.query.closestPointOnPolyBoundary(polyPath[0], startPos) == Some(points[0])
    ensures |points| > 0 && |polyPath| <= 1 ==> points[0] == startPos
    ensures polyPath == [] ==> status == DT_SUCCESS && points == [startPos]
    ensures status == DT_SUCCESS ==> 0 < |points| < MAX_POINT_PATH_LENGTH && points == stored
    ensures status == DT_FAILURE ==> points == [] || (points == stored && |points| == MAX_POINT_PATH_LENGTH)
    ensures status == DT_FAILURE | DT_SLOPE_TOO_STEEP ==>
              canCheckSlope && 0 < |stored| && points == stored[..|stored| - 1]
    ensures |polyPath| > 1 && env.query.closestPointOnPolyBoundary(polyPath[0], startPos).None? ==>
              status == DT_FAILURE && points == []
  {
    var q := env.query;
    var polys := new PolyRef[MAX_PATH_LENGTH](i => 0);
    var k := 0;
    while k < |polyPath|
      invariant 0 <= k <= |polyPath|
      invariant polys[..k] == polyPath[..k]
    {
      polys[k] := polyPath[k];
      k := k + 1;
    }
    var npolys := |polyPath|;

    var iterPos, targetPos;
    if |polyPath| > 1 {
      // Pick the closest points on poly border.
      var s := q.closestPointOnPolyBoundary(polys[0], startPos);
      if s.None? {
        return DT_FAILURE, [], [];
      }
      var e := q.closestPointOnPolyBoundary(polys[npolys - 1], endPos);
      if e.None? {
        return DT_FAILURE, [], [];
      }
      iterPos, targetPos := s.value, e.value;
    } else {
      iterPos, targetPos := startPos, endPos;
    }
    var first := iterPos;
    var pts := [iterPos];
    ghost var cap := if maxSmoothPathSize == 0 then 1 else maxSmoothPathSize;

    while npolys > 0 && |pts| < maxSmoothPathSize
      invariant npolys <= polys.Length == MAX_PATH_LENGTH
      invariant 0 < |pts| <= cap && pts[0] == first
      invariant polyPath == [] ==> npolys == 0 && pts == [first]
      decreases maxSmoothPathSize - |pts|
    {
      var outcome;
      ghost var before := pts;
      outcome, npolys, iterPos, pts := SmoothStep(env, filter, canCheckSlope, polys, npolys, iterPos, targetPos,
                                                  pts, maxSmoothPathSize);
      assert pts[0] == before[..|before|][0];
      if outcome == QueryFailed {
        return DT_FAILURE, [], pts;
      } else if outcome == TooSteep {
        return DT_FAILURE | DT_SLOPE_TOO_STEEP, pts[..|pts| - 1], pts;
      } else if outcome == Stop {
        break;
      }
    }
    // a walk that filled the whole point capacity is taken to be a loop
    return if |pts| < MAX_POINT_PATH_LENGTH then DT_SUCCESS else DT_FAILURE, pts, pts;
  }
}
