# PathGenerator — a Dafny model of AzerothCore's path planner

AzerothCore gives every moving creature or player a `PathGenerator`. It
turns "go from here to there" into a short list of way points, planned on
the map's navigation mesh (Recast/Detour). This project models that
planner. The model covers:

- **The planner object.** `Planner.PathGenerator` is a class with the
  source's fields. The polygon corridor is a fixed buffer of 74 polygon
  references plus its length. The class also holds the point path, the
  path type flags, the query filter, the options, and the start, end and
  actual end positions.
- **`CalculatePath`.** It refuses coordinates outside the map. Otherwise
  it takes the two-point shortcut when there is no mesh, when the agent
  ignores path finding, or when a tile is not loaded. In every other case
  it updates the filter and builds the corridor.
- **`BuildPolyPath`.** It locates the two end polygons, first on the old
  corridor and then by a nearest-polygon search. It handles:
  - a hole in the mesh, with the flying and swimming exception;
  - an end more than 7 units from the mesh;
  - start and end on the same polygon;
  - reuse of the old corridor: cut it when both ends lie on it, or keep
    80 percent of it and append a fresh search when only the start does;
  - a fresh corridor, found by ray cast or by path search;
  - classifying the result as normal or incomplete.
- **`BuildPointPath`.** It turns the corridor into points, either straight
  corners or a smoothed walk (`FindSmoothPath` with `GetSteerTarget`).
  It then picks one of five outcomes: add the end, keep the walked part,
  no path, too long, or accept. Last comes the forced-destination rule.
- **`FixupCorridor`.** It folds the polygons a surface move visited back
  into the corridor, in place.
- **`ShortenPathUntilDist`.** It cuts the path back until it ends at a
  given distance from a target.
- **The smaller decisions:**
  - the include flags of the filter;
  - the far-from-mesh tags;
  - water paths, swimmable segments and walkable climbs.

The modules follow the source's layers:

- `Geometry`: points, the Detour axis order, and squared distances.
- `Flags`: path types, terrain and status bits.
- `Corridor`: the corridor buffer and its in-place moves.
- `Services`: the world and the navigation-mesh query, given as oracles.
- `Steering`: the smooth walk.
- `Decisions`: the pure choices the planner makes.
- `Planner`: the class.

The navigation-mesh query (`findNearestPoly`, `findPath`, `raycast`,
`findStraightPath`, `moveAlongSurface`, `getPolyHeight`,
`closestPointOnPoly(Boundary)`, tile lookup) is a parameter of the
model. So are the map (liquid status, line of sight, allowed height,
coordinate validity, slope angle) and the agent's own properties. All of
them are function-valued fields of `Services.Env`. The only assumption
made about the query (`Services.WellBehaved`) is that it never returns
more results than the buffer it is given.

## Model

| member | source | states |
|---|---|---|
| Geometry.ToDetour | src/server/game/Movement/MovementGenerators/PathGenerator.cpp:166-168 | the world-to-Detour axis swizzle puts the elevation in slot 1 and is undone by FromDetour |
| Geometry.FromDetour | src/server/game/Movement/MovementGenerators/PathGenerator.cpp:444 | the Detour-to-world swizzle takes the elevation from slot 1 and is the inverse of ToDetour |
| Geometry.Dist3DSqr | src/server/game/Movement/MovementGenerators/PathGenerator.cpp:1035-1038 | a squared distance is never negative and is zero from a point to itself |
| Geometry.DtDistSqr | src/server/game/Movement/MovementGenerators/PathGenerator.cpp:107 | the squared distance in Detour axes equals the world squared distance of the same two points |
| Geometry.InRangeYZX | src/server/game/Movement/MovementGenerators/PathGenerator.cpp:1021-1027 | the Detour-axis range test agrees with InRange on the same points in world axes |
| Geometry.Lerp | src/server/game/Movement/MovementGenerators/PathGenerator.cpp:436 | interpolation at 0 gives the start and at 1 gives the end; at fraction t the point lies t of the way from the start and 1-t of the way from the end, in squared distance |
| Geometry.InRange | src/server/game/Movement/MovementGenerators/PathGenerator.cpp:1029-1033 | in range means horizontal distance below r and height difference below h (definition) |
| Geometry.InRangeWithinDistance | src/server/game/Movement/MovementGenerators/PathGenerator.cpp:1029-1033 | two points in range lie at squared distance below r^2 + h^2, so the forced-destination test with 1 and 1 accepts only ends closer than sqrt 2 |
| Geometry.WithElevation | src/server/game/Movement/MovementGenerators/PathGenerator.cpp:809-810 | replacing a corner's elevation leaves its horizontal position alone and sets exactly that height |
| Flags.GetNavTerrain | src/server/game/Movement/MovementGenerators/PathGenerator.cpp:699-716 | no liquid is ground; water or ocean is water; magma or slime is magma; any other liquid, including a combination, is ground |
| Flags.WithFarFromPolyFlags | src/server/game/Movement/MovementGenerators/PathGenerator.cpp:1106-1116 | adding the far-from-mesh tags clears no bit, adds only the two tags, and sets each exactly when its end is far or it was already set |
| Flags.FarFromPolyFlagsIdempotent | src/server/game/Movement/MovementGenerators/PathGenerator.cpp:1106-1116 | tagging twice is the same as tagging once |
| Flags.SlopeCheckApplies | src/server/game/Movement/MovementGenerators/PathGenerator.cpp:900 | slopes are judged only when asked and the type has a tag other than not using path (definition) |
| Corridor.Reversed | src/server/game/Movement/MovementGenerators/PathGenerator.cpp:773-774 | the visited list written back to front: same length, entry k is entry n-1-k |
| Corridor.LastCommon | src/server/game/Movement/MovementGenerators/PathGenerator.cpp:740-754 | the highest corridor index holding a visited polygon, with no visited polygon above it, or -1 |
| Corridor.FirstIndexOf | src/server/game/Movement/MovementGenerators/PathGenerator.cpp:743-751 | the lowest index of the visited list holding the polygon, none before it |
| Corridor.LastCommonUnique | src/server/game/Movement/MovementGenerators/PathGenerator.cpp:740-754 | any index with LastCommon's properties is LastCommon, so its contract determines it |
| Corridor.FirstIndexOfUnique | src/server/game/Movement/MovementGenerators/PathGenerator.cpp:743-751 | any index with FirstIndexOf's properties is FirstIndexOf |
| Corridor.KeptTail | src/server/game/Movement/MovementGenerators/PathGenerator.cpp:763-767 | the corridor tail kept after the splice is the part after the common polygon, clipped so the result fits the capacity |
| Corridor.Fixup | src/server/game/Movement/MovementGenerators/PathGenerator.cpp:734-777 | the corridor is unchanged when it shares no polygon with the visited list; otherwise it is non-empty, fits the capacity and starts with the polygon the move ended on |
| Corridor.Splice | src/server/game/Movement/MovementGenerators/PathGenerator.cpp:763-776 | the spliced corridor has the visited polygons from the common one on plus the kept tail as its length, within the capacity, and starts with the last visited polygon |
| Corridor.FixupKeepsDestination | src/server/game/Movement/MovementGenerators/PathGenerator.cpp:734-777 | when nothing is clipped, the spliced corridor still ends with the old corridor's last polygon |
| Corridor.FixupLength | src/server/game/Movement/MovementGenerators/PathGenerator.cpp:763-776 | the spliced corridor is as long as the visited polygons from the common one plus the corridor beyond it, cut to the capacity |
| Corridor.Moved | src/server/game/Movement/MovementGenerators/PathGenerator.cpp:769-770 | a memmove of size entries from one index to another: the destination range holds the old source range, all else is unchanged |
| Corridor.MoveRange | src/server/game/Movement/MovementGenerators/PathGenerator.cpp:769-770 | the in-place move, safe for overlapping ranges, leaves the array equal to Moved of its old contents |
| Corridor.CopyForward | src/server/game/Movement/MovementGenerators/PathGenerator.cpp:769-770 | a front-to-back copy realises Moved when the destination lies below the source |
| Corridor.CopyBackward | src/server/game/Movement/MovementGenerators/PathGenerator.cpp:769-770 | a back-to-front copy realises Moved when the destination lies above the source |
| Corridor.FindFurthestCommon | src/server/game/Movement/MovementGenerators/PathGenerator.cpp:739-754 | the nested backwards search finds exactly LastCommon of the corridor and the first visited index of that polygon, or -1 for both |
| Corridor.StoreVisited | src/server/game/Movement/MovementGenerators/PathGenerator.cpp:773-774 | the first req entries become the visited polygons past the common one in reverse, the rest is untouched |
| Corridor.FixupCorridor | src/server/game/Movement/MovementGenerators/PathGenerator.cpp:734-777 | the in-place fix-up leaves Fixup of the old corridor in the first n entries of the buffer and the rest of the buffer untouched |
| Corridor.SpliceInto | src/server/game/Movement/MovementGenerators/PathGenerator.cpp:763-774 | the whole buffer after the splice, of unchanged length; SpliceIntoParts shows its first entries are Splice and the rest is untouched |
| Corridor.SpliceIntoParts | src/server/game/Movement/MovementGenerators/PathGenerator.cpp:763-776 | the buffer after the splice holds Splice in its first req+size entries and the old entries after them |
| Corridor.SpliceCorridor | src/server/game/Movement/MovementGenerators/PathGenerator.cpp:763-776 | move the tail, then store the visited polygons: the buffer becomes SpliceInto of the old buffer and the count is the spliced length |
| Corridor.MoveTail | src/server/game/Movement/MovementGenerators/PathGenerator.cpp:769-770 | the move of the kept tail, a no-op for an empty tail, realises Moved |
| Corridor.Written | src/server/game/Movement/MovementGenerators/PathGenerator.cpp:371-381 | a query writing w into the buffer from an index on: that range is w and everything else is unchanged |
| Corridor.WriteAt | src/server/game/Movement/MovementGenerators/PathGenerator.cpp:371-381 | the in-place write of a query result leaves Written of the old buffer |
| Corridor.FindInCorridor | src/server/game/Movement/MovementGenerators/PathGenerator.cpp:281-313 | the forward scan stops at the first start polygon or invalid entry; the backward scan finds the last end polygon above it, and finds one exactly when one exists |
| Corridor.PrefixLength | src/server/game/Movement/MovementGenerators/PathGenerator.cpp:338 | the kept prefix is 80 percent of the remaining corridor rounded to nearest, at least 1 and at most all of it when there is any |
| Services.NavTerrainAt | src/server/game/Movement/MovementGenerators/PathGenerator.cpp:699-716 | the terrain at a point is ground, water or magma, ground where there is no liquid |
| Services.RequiredHeightToClimb | src/server/game/Movement/MovementGenerators/PathGenerator.cpp:1013-1019 | the climbable height is the source height less one percent of it per degree of slope: all of it on flat ground, none at 100 degrees |
| Services.IsWalkableClimb | src/server/game/Movement/MovementGenerators/PathGenerator.cpp:992-998 | a climb is walkable when its height difference is at most the climbable height (definition) |
| Services.WalkableClimbBudget | src/server/game/Movement/MovementGenerators/PathGenerator.cpp:992-1019 | a climb is walkable exactly when its height difference is within the source height times one minus the slope over 100 |
| Services.SteeperSlopeClimbsLess | src/server/game/Movement/MovementGenerators/PathGenerator.cpp:992-1019 | for a non-negative source height the climbable height falls as the slope rises, so a climb walkable on a steeper slope is walkable on a gentler one with the same height difference |
| Services.IsSwimmableSegment | src/server/game/Movement/MovementGenerators/PathGenerator.cpp:1141-1147 | a segment is swimmable when both ends are in water and, when asked, the agent can swim, a non-creature counting as a swimmer (definition) |
| Services.HaveTile | src/server/game/Movement/MovementGenerators/PathGenerator.cpp:718-732 | a tile is there when its coordinates are non-negative and the mesh has it loaded (definition) |
| Services.AllInWater | src/server/game/Movement/MovementGenerators/PathGenerator.cpp:1156-1172 | a path is a water path exactly when every point lies on water or magma |
| Services.IsWaterPath | src/server/game/Movement/MovementGenerators/PathGenerator.cpp:1156-1172 | the early-exit scan returns AllInWater of the points |
| Services.Grounded | src/server/game/Movement/MovementGenerators/PathGenerator.cpp:626-632 | a point moved to the ground keeps its horizontal position and takes the allowed height |
| Services.NormalizePath | src/server/game/Movement/MovementGenerators/PathGenerator.cpp:626-632 | every point is replaced by its grounded self, same count, same order |
| Steering.ScanLength | src/server/game/Movement/MovementGenerators/PathGenerator.cpp:100-117 | the scan covers every polygon up to and including the first closer than 1, or all of them |
| Steering.ScanLengthAt | src/server/game/Movement/MovementGenerators/PathGenerator.cpp:100-117 | ScanLength's contract determines its value |
| Steering.Dists | src/server/game/Movement/MovementGenerators/PathGenerator.cpp:102-106 | one squared distance per corridor polygon, absent where the closest-point query fails |
| Steering.GetPathPolyByPosition | src/server/game/Movement/MovementGenerators/PathGenerator.cpp:92-125 | the minimum over the scanned polygons, with the earliest polygon reaching it; the polygon only when that minimum is below 3, else none; none for an empty corridor |
| Steering.SteerIndex | src/server/game/Movement/MovementGenerators/PathGenerator.cpp:794-807 | the first corner that is an off-mesh link or outside the slop circle, none before it qualifying |
| Steering.SteerIndexAt | src/server/game/Movement/MovementGenerators/PathGenerator.cpp:794-807 | SteerIndex's contract determines its value |
| Steering.SteerTarget | src/server/game/Movement/MovementGenerators/PathGenerator.cpp:779-815 | a steer target always carries the start's elevation |
| Steering.GetSteerTarget | src/server/game/Movement/MovementGenerators/PathGenerator.cpp:779-815 | the target is SteerTarget and comes from a steerable corner, whose flags and polygon it keeps |
| Steering.OffMeshSkip | src/server/game/Movement/MovementGenerators/PathGenerator.cpp:924-931 | the polygons to drop up to and including the off-mesh link's start polygon: zero when it is first, else none of the earlier ones is it |
| Steering.SkipFrom | src/server/game/Movement/MovementGenerators/PathGenerator.cpp:926-931 | the scan from index k stops just past the first matching polygon or at the end |
| Steering.AdvancePastOffMesh | src/server/game/Movement/MovementGenerators/PathGenerator.cpp:922-936 | drops OffMeshSkip polygons by moving the rest to the front, and returns the link's polygon and the one before it |
| Steering.SkipFromAt | src/server/game/Movement/MovementGenerators/PathGenerator.cpp:924-931 | OffMeshSkip's contract determines its value |
| Steering.SkipFromFrom | src/server/game/Movement/MovementGenerators/PathGenerator.cpp:926-931 | SkipFrom's contract determines its value |
| Steering.Lifted | src/server/game/Movement/MovementGenerators/PathGenerator.cpp:893-896 | the moved-to point keeps its horizontal position and sits 0.5 above the polygon height, or above its own height when that is unknown |
| Steering.Arrive | src/server/game/Movement/MovementGenerators/PathGenerator.cpp:909-953 | at the path's end the end point is stored and the walk stops; at an off-mesh link the link is crossed, adding at most one point; otherwise nothing is stored |
| Steering.SmoothStep | src/server/game/Movement/MovementGenerators/PathGenerator.cpp:857-960 | one iteration only appends points, within the capacity; a failed query or a too-steep slope adds none, and the slope is only judged when slopes are checked |
| Steering.FindSmoothPath | src/server/game/Movement/MovementGenerators/PathGenerator.cpp:817-967 | the status is success, failure or slope failure; success below the capacity; the first point is the start moved onto the first polygon; a slope failure keeps all but the last point walked; a failed first query gives no points |
| Decisions.BaseIncludeFlags | src/server/game/Movement/MovementGenerators/PathGenerator.cpp:650-675 | a creature may use ground exactly when it walks and water and magma exactly when it enters water; anyone else gets all three; no other bit is set |
| Decisions.UpdatedIncludeFlags | src/server/game/Movement/MovementGenerators/PathGenerator.cpp:677-697 | the flags change only for a unit in or under water |
| Decisions.UpdateOnlyAdds | src/server/game/Movement/MovementGenerators/PathGenerator.cpp:677-697 | the update removes no terrain and adds none but the one under the agent |
| Decisions.UpdatedIncludeFlagsIdempotent | src/server/game/Movement/MovementGenerators/PathGenerator.cpp:677-697 | updating twice gives the same flags as once |
| Decisions.FarFromPoly | src/server/game/Movement/MovementGenerators/PathGenerator.cpp:201-203 | an end is far from the mesh when its squared distance exceeds 49 (definition) |
| Decisions.HoleShortcutUsable | src/server/game/Movement/MovementGenerators/PathGenerator.cpp:177-199 | the shortcut over a hole is usable when the agent flies, or swims a water path, a non-creature counting as both (definition) |
| Decisions.WaterEnds | src/server/game/Movement/MovementGenerators/PathGenerator.cpp:217-220 | both ends touch liquid, one of them under water (definition) |
| Decisions.WaterEndsInContact | src/server/game/Movement/MovementGenerators/PathGenerator.cpp:217-220 | water ends touch liquid at both ends and one is under water; an under-water start and a water-walk end are water ends |
| Decisions.FarShortcut | src/server/game/Movement/MovementGenerators/PathGenerator.cpp:205-235 | a unit that swims between water ends, flies, or falls to a lower end bridges a far end with the shortcut (definition) |
| Decisions.RetryPrefix | src/server/game/Movement/MovementGenerators/PathGenerator.cpp:346-358 | the retry uses one polygon fewer exactly when at least two were kept, never an empty prefix |
| Decisions.RetryIndexAsWritten | src/server/game/Movement/MovementGenerators/PathGenerator.cpp:349-350 | the unsigned index read on retry lies below the prefix whenever the prefix is at least 2 |
| Decisions.RetryIndexAsWrittenOverflows | src/server/game/Movement/MovementGenerators/PathGenerator.cpp:336-350 | a one-polygon remaining corridor keeps a prefix of 1 and the retry index wraps to 2^32-1, outside the corridor |
| Decisions.PointPathRungOf | src/server/game/Movement/MovementGenerators/PathGenerator.cpp:558-604 | the outcome ladder: add the end exactly for one polygon and one point without a slope failure; keep the walk only for a slope failure; accept exactly for 2 to below the limit points and no failure |
| Decisions.RungOfSmoothWalk | src/server/game/Movement/MovementGenerators/PathGenerator.cpp:565-588 | a plain walk failure always becomes no path; a slope failure keeps the walked part exactly when there is one |
| Decisions.GroundedPoints | src/server/game/Movement/MovementGenerators/PathGenerator.cpp:597-604 | the corner points in world axes and on the ground, one for one |
| Decisions.KeepsSight | src/server/game/Movement/MovementGenerators/PathGenerator.cpp:1072-1083 | the path may end at p when the raised point is in sight and, with slope checks, the agent can swim or climb there (definition) |
| Decisions.ShortenFrom | src/server/game/Movement/MovementGenerators/PathGenerator.cpp:1065-1084 | the backward scan stops at a predecessor outside the distance, or at one the path cannot end at; every point it passed is inside the distance |
| Decisions.Shortened | src/server/game/Movement/MovementGenerators/PathGenerator.cpp:1040-1099 | the shortened path: unchanged for fewer than two points, a first point inside or a last point outside the distance; else cut where the backward scan stops (definition) |
| Decisions.ShortenedShape | src/server/game/Movement/MovementGenerators/PathGenerator.cpp:1040-1099 | the shortened path keeps at least two points, no more than before, and changes none but its last |
| Decisions.ShortenedDropsOnlyClosePoints | src/server/game/Movement/MovementGenerators/PathGenerator.cpp:1059-1099 | every point dropped or moved lay within the distance of the target |
| Planner.NearestPolyIn | src/server/game/Movement/MovementGenerators/PathGenerator.cpp:138-144 | a nearest-polygon hit is a real polygon at a non-negative squared distance |
| Planner.ClampToPoly | src/server/game/Movement/MovementGenerators/PathGenerator.cpp:438-440 | a point with a known polygon height keeps its horizontal position and takes that height; without one it moves to the polygon boundary point the mesh gives; with neither it is left alone |
| Planner.MeshPolyNear | src/server/game/Movement/MovementGenerators/PathGenerator.cpp:136-159 | the mesh search gives no polygon exactly when both boxes fail, then at the sentinel distance, else a non-negative one |
| Planner.ScanPick | src/server/game/Movement/MovementGenerators/PathGenerator.cpp:100-125 | the corridor entry the scan settles on: below 3, no farther than any scanned entry, strictly nearer than those before it (definition) |
| Planner.ScanPickExists | src/server/game/Movement/MovementGenerators/PathGenerator.cpp:100-125 | the scan settles on an entry whenever one scanned entry lies below squared distance 3 |
| Planner.CornerPositions | src/server/game/Movement/MovementGenerators/PathGenerator.cpp:533-545 | the positions of the straight-path corners, one for one |
| Planner.PathGenerator.constructor | src/server/game/Movement/MovementGenerators/PathGenerator.cpp:29-46 | a new planner has an empty corridor of invalid references, a blank type, no points, all options off, the full point capacity, and the filter made for the agent |
| Planner.PathGenerator.CreateFilter | src/server/game/Movement/MovementGenerators/PathGenerator.cpp:650-675 | the filter includes the agent's base terrain, updated for water, and excludes nothing |
| Planner.PathGenerator.UpdateFilter | src/server/game/Movement/MovementGenerators/PathGenerator.cpp:677-697 | the include flags are updated for water; the exclude flags are kept |
| Planner.PathGenerator.AddFarFromPolyFlags | src/server/game/Movement/MovementGenerators/PathGenerator.cpp:1106-1116 | the type gains the far tags of the far ends and nothing else |
| Planner.PathGenerator.BuildShortcut | src/server/game/Movement/MovementGenerators/PathGenerator.cpp:634-648 | the path becomes the grounded start and actual end, typed shortcut, with no corridor |
| Planner.PathGenerator.GetPolyByLocation | src/server/game/Movement/MovementGenerators/PathGenerator.cpp:127-160 | when no scanned corridor polygon lies below squared distance 3 the answer is the mesh search; otherwise the scan's pick (nearest, first of equals) is the answer at its distance unless it is the invalid reference, in which case the mesh search answers; an empty corridor always goes to the mesh search |
| Planner.PathGenerator.ShortenPathUntilDist | src/server/game/Movement/MovementGenerators/PathGenerator.cpp:1040-1099 | a blank path is left alone; otherwise the points become Shortened, with slopes judged as the path type allows |
| Planner.PathGenerator.FinishPoints | src/server/game/Movement/MovementGenerators/PathGenerator.cpp:597-623 | PointsTaken of the grounded points: stored and ending at their last point with type and corridor kept, unless a forced destination the path misses (or a non-normal type) moves the last point there (when it came closer than the start by the 0.3 factor) or makes the path the shortcut, typed normal not using a path |
| Planner.PathGenerator.PointsTaken | src/server/game/Movement/MovementGenerators/PathGenerator.cpp:597-623 | the state FinishPoints leaves, both with and without a forced destination (definition) |
| Planner.PathGenerator.ForceDestination | src/server/game/Movement/MovementGenerators/PathGenerator.cpp:606-623 | the actual end becomes the destination, typed normal and not using a path; the last point moves there when it came closer than the start, else the path is the shortcut |
| Planner.PathGenerator.TaggedShortcut | src/server/game/Movement/MovementGenerators/PathGenerator.cpp:583-595 | the shortcut with its type tagged no path or short |
| Planner.PathGenerator.KeepWalked | src/server/game/Movement/MovementGenerators/PathGenerator.cpp:565-581 | the walked points are kept on the ground, the path ends at its last point, and the type gains the incomplete tag |
| Planner.PathGenerator.TakePoints | src/server/game/Movement/MovementGenerators/PathGenerator.cpp:558-623 | the planner is left in the state the ladder's outcome for these points prescribes |
| Planner.PathGenerator.TakeAccepted | src/server/game/Movement/MovementGenerators/PathGenerator.cpp:558-564 | the add-the-end rung finishes the start and end points and the accept rung the points as found, each as PointsTaken states, forced destination included |
| Planner.PathGenerator.TakeFallback | src/server/game/Movement/MovementGenerators/PathGenerator.cpp:565-595 | the keep-walked, no-path and too-long outcomes each leave their prescribed state |
| Planner.PathGenerator.CorridorPoints | src/server/game/Movement/MovementGenerators/PathGenerator.cpp:533-556 | straight corners or the smooth walk; an empty corridor gives the start alone; a slope failure only when slopes are checked |
| Planner.PathGenerator.BuildPointPath | src/server/game/Movement/MovementGenerators/PathGenerator.cpp:520-624 | with ray casting, no path; otherwise the state the outcome ladder prescribes for the points found (RungTaken: each rung, forced destination included), with a valid path of 1 to 74 points ending at the actual end or being the shortcut |
| Planner.PathGenerator.NoPathShortcut | src/server/game/Movement/MovementGenerators/PathGenerator.cpp:383-392 | the error exit: the shortcut typed no path, with no corridor |
| Planner.PathGenerator.CutCorridor | src/server/game/Movement/MovementGenerators/PathGenerator.cpp:315-323 | the corridor becomes exactly the old stretch from the start polygon to the end polygon |
| Planner.PathGenerator.KeepPrefix | src/server/game/Movement/MovementGenerators/PathGenerator.cpp:324-358 | the remaining corridor moves to the front, 80 percent is kept, one polygon is dropped for the retry when the last kept one has no closest point and at least two were kept; no point to start from exactly when the last kept polygon and, when there is one, the one before have no closest point |
| Planner.PathGenerator.MovePrefix | src/server/game/Movement/MovementGenerators/PathGenerator.cpp:329-341 | the remaining corridor moves to the front and the prefix length is PrefixLength of it |
| Planner.PathGenerator.AppendSuffix | src/server/game/Movement/MovementGenerators/PathGenerator.cpp:371-392 | the search result from the last kept polygon replaces that polygon, giving prefix-minus-one plus the suffix |
| Planner.PathGenerator.ExtendCorridor | src/server/game/Movement/MovementGenerators/PathGenerator.cpp:324-393 | no path exactly when ray casting or when neither the last kept polygon nor the one before (if any) has a closest point to the end; otherwise the corridor is the kept prefix followed by the search from its last polygon, type and points untouched |
| Planner.PathGenerator.RaycastCorridor | src/server/game/Movement/MovementGenerators/PathGenerator.cpp:400-472 | the corridor is the ray's polygons; an empty or failed ray gives no path; a blocked ray gives a two-point incomplete path short of the hit; a clear one a two-point path to the end |
| Planner.PathGenerator.RayPath | src/server/game/Movement/MovementGenerators/PathGenerator.cpp:431-471 | the two-point path of a ray cast that found polygons, typed by whether the ray was blocked and whether an end is far |
| Planner.PathGenerator.SearchCorridor | src/server/game/Movement/MovementGenerators/PathGenerator.cpp:473-493 | the corridor is the search's polygons; no path exactly when the search fails or finds none |
| Planner.PathGenerator.FinishCorridor | src/server/game/Movement/MovementGenerators/PathGenerator.cpp:496-517 | an empty corridor gives no path; else normal exactly when the corridor ends on the end polygon and nothing made it incomplete, with the far tags, and the points are built |
| Planner.PathGenerator.SamePolyPath | src/server/game/Movement/MovementGenerators/PathGenerator.cpp:261-279 | a one-polygon corridor, typed normal unless an end is far, and its points built |
| Planner.PathGenerator.CorridorPath | src/server/game/Movement/MovementGenerators/PathGenerator.cpp:281-517 | every corridor branch leaves a typed path of 1 to 74 points, the shortcut for a shortcut type, and a normal path only on a corridor ending at the end polygon |
| Planner.PathGenerator.BuildPolyPath | src/server/game/Movement/MovementGenerators/PathGenerator.cpp:162-518 | a hole gives the usable shortcut or, without ray casting, no path; with both polygons found, or after a hole when ray casting goes on, FarEndsTaken: the tagged shortcut for a far end allowed one, else a far end clamped onto the end polygon, and the one-polygon corridor when both ends share it; every outcome is a built poly path |
| Planner.PathGenerator.FarEndsAndCorridor | src/server/game/Movement/MovementGenerators/PathGenerator.cpp:201-279 | FarEndsTaken: a far end with a permitted shortcut gives the shortcut tagged far; a far end without one moves the end and the actual end to the end polygon's nearest point (when the mesh has one) before the corridor step; start and end on one polygon without ray casting give that polygon's corridor; every outcome is a built poly path |
| Planner.PathGenerator.ClampFarEnd | src/server/game/Movement/MovementGenerators/PathGenerator.cpp:244-256 | the end moves to the end polygon's nearest point and the actual end with it when the mesh has one, else both stay; the type becomes incomplete with the far tags |
| Planner.PathGenerator.FarEndsTaken | src/server/game/Movement/MovementGenerators/PathGenerator.cpp:201-279 | the state the far-end step leaves (definition) |
| Planner.PathGenerator.CalculatePath | src/server/game/Movement/MovementGenerators/PathGenerator.cpp:60-90 | false exactly for an invalid coordinate, changing nothing; else a built path, the shortcut without a mesh, for an agent ignoring path finding or over a missing tile, and otherwise the updated filter |
| Planner.PathGenerator.UsableShortcut | src/server/game/Movement/MovementGenerators/PathGenerator.cpp:75-84 | the shortcut typed normal and not using a path, with no corridor |
| Planner.PathGenerator.PlanPath | src/server/game/Movement/MovementGenerators/PathGenerator.cpp:67-89 | the ends and forcing flag are recorded and a built path results, the shortcut under the shortcut conditions, else with the updated filter |
| Planner.PathGenerator.CalculatePathFrom | src/server/game/Movement/MovementGenerators/PathGenerator.cpp:52-58 | planning from the agent's own position: false exactly for an invalid coordinate, else a built path from there |

## Left out

- The navigation mesh, its query object and the map are not part of this model. They are oracles: function-valued parameters in `Services.Env`. Detour's own algorithms (A* search, ray cast, straight path, surface move) are not modelled.
- Floating-point arithmetic is modelled with exact reals. Square roots, `atan` and the vector normalisation are left to oracles: `standOffPoint` for the end point of the shortened path, `slopeAngleDegrees` for the slope angle, `stepTarget` for the bounded step (square-root step length and scaled add) of one smoothing iteration. Distances are kept squared, so "more than 7 from the mesh" is "squared distance above 49". The float sentinel `FLT_MAX` is a constant, and its square stands for "no polygon".
- Logging, metrics and the debug path-drawing hooks are left out. They do not change any state.
- PathGenerator.h is not part of this model. Its constants (74 polygons, 74 points, 0.3 slop, 3 steer points) and the flag values are written out with their header values.
- `IsInvalidDestinationZ` (PathGenerator.cpp:1101-1104) is left out. It reads only the map, and no other member of the core calls it.
- The destructor and the accessors are left out. The accessors just return fields.
- Planner.PathGenerator.ShortenPathUntilDist: the collapse branch for a scan that reaches index 0 (PathGenerator.cpp:1085-1091) is not modelled. The scan cannot reach it, because the first point is outside the distance.
- Planner.PathGenerator.BuildPointPath: the contract states every rung's points, the forced destination included, in terms of the points the corridor gave; which points the mesh gives is left to the query oracle.
- Planner.PathGenerator.FarEndsAndCorridor: the clamped end is stated as it stands when the corridor step begins (the ghost results target and clampedEnd); what becomes of the actual end afterwards is stated by the corridor step's own contracts.
- Steering.FindSmoothPath: the contract does not restate each stored point. It states the first point, the count, the status and the slope case.
- Planner.PathGenerator.CorridorPath: the contract states the invariant every branch keeps. The branch-by-branch results are stated by the branch methods it calls.
- Unsigned 32-bit widths of counters and lengths are not modelled. All of them stay below 74 in the model, and nothing wraps, except the retry index described under Findings.
- Concurrency is left out. Each planner belongs to one agent and runs on one thread.

## Findings

| source | as written | input that shows it | evidently intended | confidence | as-written member | corrected member |
|---|---|---|---|---|---|---|
| src/server/game/Movement/MovementGenerators/PathGenerator.cpp:349-350 | when no closest point is found on the last kept polygon, the prefix is decremented and the index prefix-2 is read as an unsigned 32-bit value | the start polygon is the last polygon of the old corridor, so the kept prefix is 1, the end is not on the old corridor, and closestPointOnPoly fails for the start polygon and the end point, although the same polygon was just returned by the corridor scan (lines 100-117, where closestPointOnPoly succeeded for it with the start point) or by findNearestPoly; an input only a mesh answering that way produces: the index wraps to 2^32-1 and the read falls outside the 74-entry buffer | retry with the previous polygon only when one exists, else give up with the no-path shortcut | not executed | Decisions.RetryIndexAsWrittenOverflows | Decisions.RetryPrefix |
