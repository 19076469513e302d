/** The polygon corridor: a bounded array of polygon references, the in-place
    moves the planner performs on it, and the splice that folds the polygons a
    surface move visited back into it (FixupCorridor). */
module Corridor {

  /** An opaque polygon handle of the navigation mesh; 0 is "no polygon". */
  type PolyRef = nat

  const INVALID_POLYREF: PolyRef := 0

  /** Capacity of a polygon corridor (declared in PathGenerator.h). */
  const MAX_PATH_LENGTH: nat := 74

  /** Capacity of the visited list a single surface move reports. */
  const MAX_VISIT_POLY: nat := 16

  /** s read back to front. */
  function Reversed(s: seq<PolyRef>): (r: seq<PolyRef>)
    ensures |r| == |s|
    ensures forall k :: 0 <= k < |s| ==> r[k] == s[|s| - 1 - k]
  {
    seq(|s|, k requires 0 <= k < |s| => s[|s| - 1 - k])
  }

  /** The highest index of path holding a polygon that visited also holds,
      or -1 when the two share none. */
  function LastCommon(path: seq<PolyRef>, visited: seq<PolyRef>): (i: int)
    ensures -1 <= i < |path|
    ensures i >= 0 ==> path[i] in visited
    ensures forall k :: i < k < |path| ==> path[k] !in visited
  {
    LastCommonBelow(path, visited, |path|)
  }

  /** LastCommon restricted to the first n entries of path. */
  function LastCommonBelow(path: seq<PolyRef>, visited: seq<PolyRef>, n: nat): (i: int)
    requires n <= |path|
    ensures -1 <= i < n
    ensures i >= 0 ==> path[i] in visited
    ensures forall k :: i < k < n ==> path[k] !in visited
  {
    if n == 0 then -1
    else if path[n - 1] in visited then n - 1
    else LastCommonBelow(path, visited, n - 1)
  }

  /** The lowest index of s holding x. */
  function FirstIndexOf(x: PolyRef, s: seq<PolyRef>): (j: nat)
    requires x in s
    ensures j < |s| && s[j] == x
    ensures forall k :: 0 <= k < j ==> s[k] != x
  {
    FirstIndexFrom(x, s, 0)
  }

  /** The lowest index at or after from holding x. */
  function FirstIndexFrom(x: PolyRef, s: seq<PolyRef>, from: nat): (j: nat)
    requires exists k :: from <= k < |s| && s[k] == x
    ensures from <= j < |s| && s[j] == x
    ensures forall k :: from <= k < j ==> s[k] != x
    decreases |s| - from
  {
    if s[from] == x then from else FirstIndexFrom(x, s, from + 1)
  }

  /** The contract of LastCommon determines its value. */
  lemma LastCommonUnique(path: seq<PolyRef>, visited: seq<PolyRef>, i: int)
    requires -1 <= i < |path|
    requires i >= 0 ==> path[i] in visited
    requires forall k :: i < k < |path| ==> path[k] !in visited
    ensures LastCommon(path, visited) == i
  {
  }

  /** The contract of FirstIndexOf determines its value. */
  lemma FirstIndexOfUnique(x: PolyRef, s: seq<PolyRef>, j: nat)
    requires j < |s| && s[j] == x
    requires forall k :: 0 <= k < j ==> s[k] != x
    ensures FirstIndexOf(x, s) == j
  {
  }

  /** Length of the tail of the corridor kept after the splice: what lies
      beyond the common polygon, cut so that the result fits maxPath. */
  function KeptTail(npath: nat, furthestPath: nat, req: nat, maxPath: nat): (size: nat)
    requires furthestPath < npath && req <= maxPath
    ensures req + size <= maxPath
    ensures furthestPath + 1 + size <= npath
    ensures size == npath - furthestPath - 1 || req + size == maxPath
  {
    var size := npath - (furthestPath + 1);
    if req + size > maxPath then maxPath - req else size
  }

  /** The corridor after a surface move that visited the polygons in
      visited (in the order it entered them): the visited polygons, from
      the last one entered back to the common polygon, followed by the part
      of the old corridor beyond the common polygon, cut to maxPath. */
  function Fixup(path: seq<PolyRef>, maxPath: nat, visited: seq<PolyRef>): (r: seq<PolyRef>)
    requires |visited| <= maxPath
    ensures LastCommon(path, visited) < 0 ==> r == path
    ensures LastCommon(path, visited) >= 0 ==> 0 < |r| <= maxPath && r[0] == visited[|visited| - 1]
  {
    var furthestPath := LastCommon(path, visited);
    if furthestPath < 0 then path
    else Splice(path, maxPath, visited, furthestPath, FirstIndexOf(path[furthestPath], visited))
  }

  /** The splice once the common polygon is known to sit at path[fp] and
      visited[fv]: visited[fv..] back to front, then the kept tail. */
  function Splice(path: seq<PolyRef>, maxPath: nat, visited: seq<PolyRef>, fp: nat, fv: nat): (r: seq<PolyRef>)
    requires fp < |path| && fv < |visited| <= maxPath
    ensures |r| == |visited| - fv + KeptTail(|path|, fp, |visited| - fv, maxPath) <= maxPath
    ensures r[0] == visited[|visited| - 1]
  {
    Reversed(visited[fv..]) + path[fp + 1..fp + 1 + KeptTail(|path|, fp, |visited| - fv, maxPath)]
  }

  /** When the splice is not cut short, the corridor still ends where it
      ended before: the move never loses the destination polygon. */
  lemma FixupKeepsDestination(path: seq<PolyRef>, maxPath: nat, visited: seq<PolyRef>)
    requires |visited| <= maxPath && path != []
    requires LastCommon(path, visited) >= 0
    requires |visited| - FirstIndexOf(path[LastCommon(path, visited)], visited)
             + |path| - LastCommon(path, visited) - 1 <= maxPath
    ensures var r := Fixup(path, maxPath, visited); r != [] && r[|r| - 1] == path[|path| - 1]
  {
    var fp := LastCommon(path, visited);
    var fv := FirstIndexOf(path[fp], visited);
    var size := KeptTail(|path|, fp, |visited| - fv, maxPath);
    FixupUnfold(path, maxPath, visited, fp, fv);
    var rev, tail := Reversed(visited[fv..]), path[fp + 1..fp + 1 + size];
    if size == 0 {
      // the common polygon is the destination itself
      assert fp == |path| - 1;
      assert (rev + tail)[|rev| - 1] == rev[|rev| - 1] == visited[fv];
    } else {
      assert fp + 1 + size == |path|;
      assert (rev + tail)[|rev| + size - 1] == tail[size - 1];
    }
  }

  /** Length of the spliced corridor. */
  lemma FixupLength(path: seq<PolyRef>, maxPath: nat, visited: seq<PolyRef>)
    requires |visited| <= maxPath
    requires LastCommon(path, visited) >= 0
    ensures var fp := LastCommon(path, visited);
            var fv := FirstIndexOf(path[fp], visited);
            var want := |visited| - fv + |path| - fp - 1;
            |Fixup(path, maxPath, visited)| == if want <= maxPath then want else maxPath
  {
  }

  /** s with the n entries at src copied over the n entries at dst, each
      copied entry read from s as it was before the copy. */
  function Moved(s: seq<PolyRef>, dst: nat, src: nat, n: nat): (r: seq<PolyRef>)
    requires dst + n <= |s| && src + n <= |s|
    ensures |r| == |s|
    ensures r[dst..dst + n] == s[src..src + n]
    ensures r[..dst] == s[..dst] && r[dst + n..] == s[dst + n..]
  {
    s[..dst] + s[src..src + n] + s[dst + n..]
  }

  /** memmove(a + dst, a + src, n): the n references at src, as they were
      before the call, now sit at dst; the ranges may overlap. Copies front
      to back when moving down and back to front when moving up. */
  method MoveRange(a: array<PolyRef>, dst: nat, src: nat, n: nat)
    requires dst + n <= a.Length && src + n <= a.Length
    modifies a
    ensures a[..] == Moved(old(a[..]), dst, src, n)
  {
    if dst <= src {
      CopyForward(a, dst, src, n);
    } else {
      CopyBackward(a, dst, src, n);
    }
  }

  /** Front-to-back copy: safe when the destination lies below the source. */
  method CopyForward(a: array<PolyRef>, dst: nat, src: nat, n: nat)
    requires dst + n <= a.Length && src + n <= a.Length && dst <= src
    modifies a
    ensures a[..] == Moved(old(a[..]), dst, src, n)
  {
    ghost var s := a[..];
    var i := 0;
    while i < n
      invariant 0 <= i <= n
      invariant forall p :: dst <= p < dst + i ==> a[p] == s[p - dst + src]
      invariant forall p :: 0 <= p < a.Length && !(dst <= p < dst + i) ==> a[p] == s[p]
    {
      a[dst + i] := a[src + i];
      i := i + 1;
    }
    MovedPointwise(s, a[..], dst, src, n);
  }

  /** Back-to-front copy: safe when the destination lies above the source. */
  method CopyBackward(a: array<PolyRef>, dst: nat, src: nat, n: nat)
    requires dst + n <= a.Length && src + n <= a.Length && src < dst
    modifies a
    ensures a[..] == Moved(old(a[..]), dst, src, n)
  {
    ghost var s := a[..];
    var i := n;
    while i > 0
      invariant 0 <= i <= n
      invariant forall p :: dst + i <= p < dst + n ==> a[p] == s[p - dst + src]
      invariant forall p :: 0 <= p < a.Length && !(dst + i <= p < dst + n) ==> a[p] == s[p]
    {
      i := i - 1;
      a[dst + i] := a[src + i];
    }
    MovedPointwise(s, a[..], dst, src, n);
  }

  /** Moved, entry by entry. */
  lemma MovedPointwise(s: seq<PolyRef>, r: seq<PolyRef>, dst: nat, src: nat, n: nat)
    requires dst + n <= |s| && src + n <= |s| && |r| == |s|
    requires forall p :: dst <= p < dst + n ==> r[p] == s[p - dst + src]
    requires forall p :: 0 <= p < |s| && !(dst <= p < dst + n) ==> r[p] == s[p]
    ensures r == Moved(s, dst, src, n)
  {
    assert forall p :: 0 <= p < |s| ==> r[p] == Moved(s, dst, src, n)[p];
  }

  /** The search half of FixupCorridor: scanning the corridor from its tail,
      the first polygon that visited also holds, and the lowest index of
      visited holding it (the inner scan runs to the front without stopping,
      so its last match is the lowest one). -1, -1 when there is none. */
  method FindFurthestCommon(path: array<PolyRef>, npath: nat, visited: seq<PolyRef>)
    returns (furthestPath: int, furthestVisited: int)
    requires npath <= path.Length
    ensures furthestPath == LastCommon(path[..npath], visited)
    ensures furthestPath < 0 ==> furthestVisited == -1
    ensures furthestPath >= 0 ==> furthestVisited == FirstIndexOf(path[furthestPath], visited)
  {
    furthestPath, furthestVisited := -1, -1;
    var i: int := npath - 1;
    while i >= 0
      invariant -1 <= i < npath
      invariant furthestPath == -1 && furthestVisited == -1
      invariant forall k :: i < k < npath ==> path[k] !in visited
      decreases i + 1
    {
      var found := false;
      var j: int := |visited| - 1;
      while j >= 0
        invariant -1 <= j < |visited|
        invariant found <==> exists k :: j < k < |visited| && visited[k] == path[i]
        invariant found ==> furthestPath == i && j < furthestVisited < |visited| && visited[furthestVisited] == path[i]
                            && forall k :: j < k < furthestVisited ==> visited[k] != path[i]
        invariant !found ==> furthestPath == -1 && furthestVisited == -1
      {
        if path[i] == visited[j] {
          furthestPath := i;
          furthestVisited := j;
          found := true;
        }
        j := j - 1;
      }
      if found {
        assert path[..npath][i] == path[i];
        LastCommonUnique(path[..npath], visited, i);
        FirstIndexOfUnique(path[i], visited, furthestVisited);
        return;
      }
      assert path[i] !in visited;
      i := i - 1;
    }
    assert forall k :: 0 <= k < npath ==> path[..npath][k] == path[k];
    LastCommonUnique(path[..npath], visited, -1);
  }

  /** The first req entries of path become the last req visited polygons,
      last one first. */
  method StoreVisited(path: array<PolyRef>, visited: seq<PolyRef>, req: nat)
    requires req <= |visited| && req <= path.Length
    modifies path
    ensures path[..] == Reversed(visited[|visited| - req..]) + old(path[req..])
  {
    var k := 0;
    while k < req
      invariant 0 <= k <= req
      invariant forall m {:trigger path[m]} :: 0 <= m < k ==> path[m] == visited[|visited| - 1 - m]
      invariant forall m {:trigger path[m]} :: k <= m < path.Length ==> path[m] == old(path[m])
    {
      path[k] := visited[|visited| - 1 - k];
      k := k + 1;
    }
    assert forall m :: 0 <= m < path.Length ==> path[..][m] == (Reversed(visited[|visited| - req..]) + old(path[req..]))[m];
  }

  /** FixupCorridor: splice the visited polygons into the first npath entries
      of path in place and return the new corridor length. */
  method FixupCorridor(path: array<PolyRef>, npath: nat, maxPath: nat, visited: seq<PolyRef>)
    returns (n: nat)
    requires npath <= path.Length && maxPath <= path.Length
    requires |visited| <= maxPath
    modifies path
    ensures n <= path.Length
    ensures path[..n] == Fixup(old(path[..npath]), maxPath, visited)
    ensures path[n..] == old(path[n..])
  {
    var furthestPath, furthestVisited := FindFurthestCommon(path, npath, visited);

    // If no intersection found just return current path.
    if furthestPath == -1 || furthestVisited == -1 {
      return npath;
    }
    ghost var p0 := path[..];
    n := SpliceCorridor(path, npath, maxPath, visited, furthestPath, furthestVisited);
    SpliceIntoParts(p0, path[..], npath, maxPath, visited, furthestPath, furthestVisited, n);
    assert p0[..npath] == old(path[..npath]);
    FixupUnfold(p0[..npath], maxPath, visited, furthestPath, furthestVisited);
  }

  /** The whole buffer after the splice: the spliced corridor, then the
      entries beyond it as they were. */
  function SpliceInto(s: seq<PolyRef>, npath: nat, maxPath: nat, visited: seq<PolyRef>, fp: nat, fv: nat)
    : (r: seq<PolyRef>)
    requires npath <= |s| && maxPath <= |s| && fp < npath && fv < |visited| <= maxPath
    ensures |r| == |s|
  {
    var sp := Splice(s[..npath], maxPath, visited, fp, fv);
    sp + s[|sp|..]
  }

  /** Reading the spliced corridor and the untouched rest off SpliceInto. */
  lemma SpliceIntoParts(s: seq<PolyRef>, r: seq<PolyRef>, npath: nat, maxPath: nat, visited: seq<PolyRef>,
                        fp: nat, fv: nat, n: nat)
    requires npath <= |s| && maxPath <= |s| && fp < npath && fv < |visited| <= maxPath
    requires r == SpliceInto(s, npath, maxPath, visited, fp, fv)
    requires n == |visited| - fv + KeptTail(npath, fp, |visited| - fv, maxPath)
    ensures n <= |r| && r[..n] == Splice(s[..npath], maxPath, visited, fp, fv) && r[n..] == s[n..]
  {
  }

  /** The found half of FixupCorridor: move the kept tail behind the room
      the visited polygons need, then store them. */
  method SpliceCorridor(path: array<PolyRef>, npath: nat, maxPath: nat, visited: seq<PolyRef>,
                        furthestPath: nat, furthestVisited: nat)
    returns (n: nat)
    requires npath <= path.Length && maxPath <= path.Length
    requires |visited| <= maxPath
    requires furthestPath < npath && furthestVisited < |visited|
    modifies path
    ensures n == |visited| - furthestVisited + KeptTail(npath, furthestPath, |visited| - furthestVisited, maxPath)
    ensures path[..] == SpliceInto(old(path[..]), npath, maxPath, visited, furthestPath, furthestVisited)
  {
    ghost var p0 := path[..];
    // Concatenate paths.
    var req := |visited| - furthestVisited;
    var orig := furthestPath + 1;
    var size := KeptTail(npath, furthestPath, req, maxPath);
    MoveTail(path, req, orig, size);
    ghost var moved := path[..];

    // Store visited.
    StoreVisited(path, visited, req);
    n := req + size;
    SpliceDone(p0, moved, path[..], npath, maxPath, visited, furthestPath, furthestVisited, req, size);
  }

  /** The move half of the splice: the kept tail, if there is one, moved to
      sit just behind the room the visited polygons need. */
  method MoveTail(path: array<PolyRef>, req: nat, orig: nat, size: nat)
    requires req + size <= path.Length && orig + size <= path.Length
    modifies path
    ensures path[..] == Moved(old(path[..]), req, orig, size)
  {
    if size > 0 {
      MoveRange(path, req, orig, size);
    } else {
      MovedNothing(path[..], req, orig);
    }
  }

  /** Moving nothing leaves the buffer as it was. */
  lemma MovedNothing(s: seq<PolyRef>, dst: nat, src: nat)
    requires dst <= |s| && src <= |s|
    ensures Moved(s, dst, src, 0) == s
  {
    assert s[..dst] + s[src..src] + s[dst..] == s[..dst] + s[dst..];
  }

  /** The splice of the first npath entries of s, read off s itself. */
  lemma SpliceAt(s: seq<PolyRef>, npath: nat, maxPath: nat, visited: seq<PolyRef>, fp: nat, fv: nat)
    requires npath <= |s| && fp < npath && fv < |visited| <= maxPath
    ensures var size := KeptTail(npath, fp, |visited| - fv, maxPath);
            Splice(s[..npath], maxPath, visited, fp, fv) == Reversed(visited[fv..]) + s[fp + 1..fp + 1 + size]
  {
    var size := KeptTail(npath, fp, |visited| - fv, maxPath);
    assert |s[..npath]| == npath;
    SliceOfPrefix(s, npath, fp + 1, fp + 1 + size);
  }

  /** The buffer after the move and the store holds the splice, then what
      it held before. */
  lemma SpliceDone(p0: seq<PolyRef>, moved: seq<PolyRef>, now: seq<PolyRef>, npath: nat, maxPath: nat,
                   visited: seq<PolyRef>, fp: nat, fv: nat, req: nat, size: nat)
    requires npath <= |p0| && maxPath <= |p0| && fp < npath && fv < |visited| <= maxPath
    requires req == |visited| - fv && size == KeptTail(npath, fp, req, maxPath)
    requires moved == Moved(p0, req, fp + 1, size)
    requires now == Reversed(visited[|visited| - req..]) + moved[req..]
    ensures now == SpliceInto(p0, npath, maxPath, visited, fp, fv)
  {
    SpliceSlices(p0, now, Reversed(visited[fv..]), req, fp + 1, size);
    SpliceAt(p0, npath, maxPath, visited, fp, fv);
    var sp := Splice(p0[..npath], maxPath, visited, fp, fv);
    assert |sp| == req + size && now[..req + size] == sp;
    Rejoin(now, req + size);
  }

  lemma Rejoin(s: seq<PolyRef>, k: nat)
    requires k <= |s|
    ensures s == s[..k] + s[k..]
  {
  }

  /** Slice bookkeeping for SpliceCorridor: after the move and the store,
      the first req + size entries are the splice and the rest is as before. */
  lemma SpliceSlices(p0: seq<PolyRef>, now: seq<PolyRef>, rev: seq<PolyRef>,
                     req: nat, orig: nat, size: nat)
    requires |rev| == req && req + size <= |p0| && orig + size <= |p0|
    requires now == rev + Moved(p0, req, orig, size)[req..]
    ensures now[..req + size] == rev + p0[orig..orig + size] && now[req + size..] == p0[req + size..]
  {
    var moved := Moved(p0, req, orig, size);
    assert moved[req..req + size] == p0[orig..orig + size];
    assert moved[req + size..] == p0[req + size..];
    assert now[..req + size] == rev + moved[req..req + size];
    assert now[req + size..] == moved[req + size..];
  }

  /** The spliced corridor, written with the indices the search found. */
  lemma FixupUnfold(path: seq<PolyRef>, maxPath: nat, visited: seq<PolyRef>, fp: nat, fv: nat)
    requires |visited| <= maxPath
    requires fp == LastCommon(path, visited) && fv == FirstIndexOf(path[fp], visited)
    ensures Fixup(path, maxPath, visited) == Splice(path, maxPath, visited, fp, fv)
  {
  }

  lemma SliceOfPrefix(s: seq<PolyRef>, n: nat, i: nat, j: nat)
    requires i <= j <= n <= |s|
    ensures s[..n][i..j] == s[i..j]
  {
  }

  // ---------------------------------------------------------------------
  // Reusing the previous corridor (BuildPolyPath)

  /** s with w written over it from index at on, as a library query writes
      its result into the corridor buffer. */
  function Written(s: seq<PolyRef>, at: nat, w: seq<PolyRef>): (r: seq<PolyRef>)
    requires at + |w| <= |s|
    ensures |r| == |s|
    ensures r[at..at + |w|] == w
    ensures r[..at] == s[..at] && r[at + |w|..] == s[at + |w|..]
  {
    s[..at] + w + s[at + |w|..]
  }

  /** The library writing w into the buffer a from index at on. */
  method WriteAt(a: array<PolyRef>, at: nat, w: seq<PolyRef>)
    requires at + |w| <= a.Length
    modifies a
    ensures a[..] == Written(old(a[..]), at, w)
  {
    forall k | at <= k < at + |w| {
      a[k] := w[k - at];
    }
    assert forall k :: 0 <= k < a.Length ==> a[..][k] == Written(old(a[..]), at, w)[k];
  }

  /** The two scans of BuildPolyPath over the previous corridor: from the
      front, the first entry that is the start polygon or the invalid
      reference (which stops the scan); then from the back, down to just
      above that index, the last entry that is the end polygon. */
  method FindInCorridor(refs: seq<PolyRef>, startPoly: PolyRef, endPoly: PolyRef)
    returns (startIndex: nat, startFound: bool, endIndex: nat, endFound: bool)
    ensures startIndex <= |refs|
    ensures forall k :: 0 <= k < startIndex ==> refs[k] != INVALID_POLYREF && refs[k] != startPoly
    ensures startIndex < |refs| ==> refs[startIndex] == INVALID_POLYREF || refs[startIndex] == startPoly
    ensures startFound <==> startIndex < |refs| && refs[startIndex] != INVALID_POLYREF
    ensures startFound ==> refs[startIndex] == startPoly
    ensures endFound <==> exists k :: startIndex < k < |refs| && refs[k] == endPoly
    ensures endFound ==> startIndex < endIndex < |refs| && refs[endIndex] == endPoly
                         && forall k :: endIndex < k < |refs| ==> refs[k] != endPoly
  {
    startIndex, startFound, endIndex, endFound := 0, false, 0, false;
    if |refs| == 0 {
      return;
    }
    while startIndex < |refs|
      invariant startIndex <= |refs|
      invariant forall k :: 0 <= k < startIndex ==> refs[k] != INVALID_POLYREF && refs[k] != startPoly
    {

      if refs[startIndex] == INVALID_POLYREF {
        break;
      }
      if refs[startIndex] == startPoly {
        startFound := true;
        break;
      }
      startIndex := startIndex + 1;
    }
    assert startFound ==> refs[startIndex] == startPoly;
    endIndex := |refs| - 1;
    while endIndex > startIndex
      invariant endIndex < |refs|
      invariant forall k :: endIndex < k < |refs| ==> refs[k] != endPoly
    {
      if refs[endIndex] == endPoly {
        endFound := true;
        break;
      }
      endIndex := endIndex - 1;
    }
  }

  /** How much of the remaining corridor BuildPolyPath keeps when only the
      start lies on it: 80 percent of it, rounded to the nearest count. */
  function PrefixLength(n: nat): (p: nat)
    ensures 8 * n < 10 * p + 5 && 10 * p <= 8 * n + 5  // |p - 0.8 n| <= 0.5
    ensures n >= 1 ==> 1 <= p <= n
  {
    (8 * n + 5) / 10
  }
}
