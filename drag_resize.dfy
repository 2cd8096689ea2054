/** Pointer-driven drag and resize of one crop square, with edge snapping
    to the other squares. The arithmetic is written as functions; the
    snapping search is the loop of `applySnap`, proved equal to a fold
    over the candidate alignments; the origin of a gesture lives in the
    two records of `DragResize`, set on pointer-down and cleared on
    pointer-up. */
module DragResize {
  import opened Types

  const MIN_SIZE: real := 50.0
  const SNAP_THRESHOLD: real := 12.0

  datatype Bounds = Bounds(maxWidth: real, maxHeight: real)

  /** Where a drag started: pointer position and the square's corner. */
  datatype DragOrigin = DragOrigin(startX: real, startY: real, origX: real, origY: real)

  /** Where a resize started, and which corner handle was grabbed. */
  datatype ResizeOrigin = ResizeOrigin(startX: real, startY: real, origX: real, origY: real,
                                       origSize: real, corner: string)

  datatype Point = Point(x: real, y: real)

  function Abs(v: real): real
  {
    if v < 0.0 then -v else v
  }

  // ------------------------------------------------------------ snapping

  /** The two edges of a target on one axis (left/right or top/bottom). */
  datatype Edges = Edges(lo: real, hi: real)

  /** A possible snap: how far the edge would move, and the coordinate the
      moving square's corner would take. */
  datatype Candidate = Candidate(dist: real, value: real)

  function HorizontalEdges(targets: seq<Position>): (r: seq<Edges>)
    ensures |r| == |targets|
    ensures forall i :: 0 <= i < |targets| ==> r[i] == Edges(targets[i].x, targets[i].x + targets[i].size)
  {
    seq(|targets|, i requires 0 <= i < |targets| => Edges(targets[i].x, targets[i].x + targets[i].size))
  }

  function VerticalEdges(targets: seq<Position>): (r: seq<Edges>)
    ensures |r| == |targets|
    ensures forall i :: 0 <= i < |targets| ==> r[i] == Edges(targets[i].y, targets[i].y + targets[i].size)
  {
    seq(|targets|, i requires 0 <= i < |targets| => Edges(targets[i].y, targets[i].y + targets[i].size))
  }

  /** The four alignments against one target, in the order they are
      tried: my near edge to its near and far edge, then my far edge to
      its near and far edge. Each candidate's distance is exactly how far
      the corner would move. */
  function AxisCandidates(p: real, size: real, e: Edges): (r: seq<Candidate>)
    ensures |r| == 4
    ensures forall k :: 0 <= k < 4 ==> r[k].dist == Abs(r[k].value - p)
    ensures r[0].value == e.lo && r[1].value == e.hi && r[2].value == e.lo - size && r[3].value == e.hi - size
  {
    [Candidate(Abs(p - e.lo), e.lo), Candidate(Abs(p - e.hi), e.hi),
     Candidate(Abs(p + size - e.lo), e.lo - size), Candidate(Abs(p + size - e.hi), e.hi - size)]
  }

  /** All alignments against all targets, target by target. */
  function Candidates(p: real, size: real, edges: seq<Edges>): (r: seq<Candidate>)
    ensures |r| == 4 * |edges|
  {
    if edges == [] then []
    else Candidates(p, size, edges[..|edges| - 1]) + AxisCandidates(p, size, edges[|edges| - 1])
  }

  /** Candidate `k` is alignment `k % 4` against target `k / 4`. */
  lemma {:induction false} CandidateAt(p: real, size: real, edges: seq<Edges>, k: int)
    requires 0 <= k < 4 * |edges|
    ensures Candidates(p, size, edges)[k] == AxisCandidates(p, size, edges[k / 4])[k % 4]
  {
    var prefix := edges[..|edges| - 1];
    if k < 4 * |prefix| {
      CandidateAt(p, size, prefix, k);
      assert prefix[k / 4] == edges[k / 4];
    }
  }

  /** One comparison of the search: a strictly nearer candidate wins. */
  function Step(best: Candidate, c: Candidate): Candidate
  {
    if c.dist < best.dist then c else best
  }

  /** The search over the candidates in order, from a starting best. */
  function Best(cands: seq<Candidate>, start: Candidate): Candidate
  {
    if cands == [] then start else Step(Best(cands[..|cands| - 1], start), cands[|cands| - 1])
  }

  /** The snapped coordinate on one axis: the winner of the search when it
      is within the threshold, otherwise the coordinate itself. */
  function SnapAxis(p: real, size: real, edges: seq<Edges>): real
  {
    var b := Best(Candidates(p, size, edges), Candidate(SNAP_THRESHOLD + 1.0, p));
    if b.dist <= SNAP_THRESHOLD then b.value else p
  }

  /** Candidate `k` is within the threshold, no candidate is nearer, and
      every earlier candidate is strictly farther. */
  predicate FirstNearest(cands: seq<Candidate>, k: int)
  {
    && 0 <= k < |cands|
    && cands[k].dist <= SNAP_THRESHOLD
    && (forall j :: 0 <= j < |cands| ==> cands[k].dist <= cands[j].dist)
    && (forall j :: 0 <= j < k ==> cands[j].dist > cands[k].dist)
  }

  /** The search returns its start unless some candidate is strictly
      nearer, and then the first of the nearest candidates. */
  lemma {:induction false} BestIsFirstMinimum(cands: seq<Candidate>, start: Candidate)
    ensures var b := Best(cands, start);
      && b.dist <= start.dist
      && (forall j :: 0 <= j < |cands| ==> b.dist <= cands[j].dist)
      && (b == start || exists k :: 0 <= k < |cands| && b == cands[k] && b.dist < start.dist
                                    && forall j :: 0 <= j < k ==> cands[j].dist > b.dist)
  {
    if cands != [] {
      var prefix := cands[..|cands| - 1];
      BestIsFirstMinimum(prefix, start);
      var b0 := Best(prefix, start);
      var last := cands[|cands| - 1];
      if last.dist < b0.dist {
        assert Best(cands, start) == last;
        assert forall j :: 0 <= j < |cands| - 1 ==> cands[j] == prefix[j];
      } else {
        assert Best(cands, start) == b0;
        if b0 != start {
          var k :| 0 <= k < |prefix| && b0 == prefix[k] && b0.dist < start.dist
                   && forall j :: 0 <= j < k ==> prefix[j].dist > b0.dist;
          assert b0 == cands[k];
          assert forall j :: 0 <= j < k ==> cands[j] == prefix[j];
        }
      }
    }
  }

  /** `applySnap` on one axis, first half: when no alignment is within
      the threshold the coordinate is unchanged. */
  lemma SnapAxisUnmoved(p: real, size: real, edges: seq<Edges>)
    requires forall j :: 0 <= j < |Candidates(p, size, edges)| ==> Candidates(p, size, edges)[j].dist > SNAP_THRESHOLD
    ensures SnapAxis(p, size, edges) == p
  {
    var c := Candidates(p, size, edges);
    var start := Candidate(SNAP_THRESHOLD + 1.0, p);
    BestIsFirstMinimum(c, start);
    var b := Best(c, start);
    if b != start {
      var k :| 0 <= k < |c| && b == c[k];
    }
  }

  /** `applySnap` on one axis, second half: when some alignment is within
      the threshold the coordinate takes the value of the first nearest. */
  lemma SnapAxisNearest(p: real, size: real, edges: seq<Edges>, j: int)
    requires 0 <= j < |Candidates(p, size, edges)| && Candidates(p, size, edges)[j].dist <= SNAP_THRESHOLD
    ensures exists k :: FirstNearest(Candidates(p, size, edges), k) && SnapAxis(p, size, edges) == Candidates(p, size, edges)[k].value
  {
    var c := Candidates(p, size, edges);
    var start := Candidate(SNAP_THRESHOLD + 1.0, p);
    BestIsFirstMinimum(c, start);
    var b := Best(c, start);
    assert b.dist <= c[j].dist;
    assert b != start;
    var k :| 0 <= k < |c| && b == c[k] && b.dist < start.dist
             && forall i :: 0 <= i < k ==> c[i].dist > b.dist;
    assert FirstNearest(c, k);
  }

  /** A snapped coordinate moved at most the threshold, onto an edge of a
      target or onto an edge less the square's size. */
  lemma SnapAxisTarget(p: real, size: real, edges: seq<Edges>)
    ensures var r := SnapAxis(p, size, edges);
      r == p || (Abs(r - p) <= SNAP_THRESHOLD &&
                 exists i :: 0 <= i < |edges| &&
                   (r == edges[i].lo || r == edges[i].hi || r == edges[i].lo - size || r == edges[i].hi - size))
  {
    var c := Candidates(p, size, edges);
    if exists j :: 0 <= j < |c| && c[j].dist <= SNAP_THRESHOLD {
      var j :| 0 <= j < |c| && c[j].dist <= SNAP_THRESHOLD;
      SnapAxisNearest(p, size, edges, j);
      var k :| FirstNearest(c, k) && SnapAxis(p, size, edges) == c[k].value;
      CandidateAt(p, size, edges, k);
      var i, m := k / 4, k % 4;
      assert 0 <= i < |edges| && 0 <= m < 4;
      var a := AxisCandidates(p, size, edges[i]);
      assert c[k] == a[m];
      assert Abs(c[k].value - p) <= SNAP_THRESHOLD;
      if m == 0 {
        assert c[k].value == edges[i].lo;
      } else if m == 1 {
        assert c[k].value == edges[i].hi;
      } else if m == 2 {
        assert c[k].value == edges[i].lo - size;
      } else {
        assert c[k].value == edges[i].hi - size;
      }
    } else {
      SnapAxisUnmoved(p, size, edges);
    }
  }

  /** With no targets nothing snaps. */
  lemma SnapAxisNoTargets(p: real, size: real)
    ensures SnapAxis(p, size, []) == p
  {
  }

  /** The horizontal result depends only on the targets' horizontal
      edges: targets that agree on `x` and `size` snap `x` alike. */
  lemma SnapXIgnoresVertical(x: real, size: real, t1: seq<Position>, t2: seq<Position>)
    requires |t1| == |t2|
    requires forall i :: 0 <= i < |t1| ==> t1[i].x == t2[i].x && t1[i].size == t2[i].size
    ensures SnapAxis(x, size, HorizontalEdges(t1)) == SnapAxis(x, size, HorizontalEdges(t2))
  {
    assert HorizontalEdges(t1) == HorizontalEdges(t2);
  }

  /** `applySnap(x, y, size, targets)`: one pass over the targets that
      keeps, per axis, the nearest alignment seen so far. */
  method ApplySnap(x: real, y: real, size: real, targets: seq<Position>) returns (sx: real, sy: real)
    ensures sx == SnapAxis(x, size, HorizontalEdges(targets))
    ensures sy == SnapAxis(y, size, VerticalEdges(targets))
  {
    var snappedX, snappedY := x, y;
    var bestDx, bestDy := SNAP_THRESHOLD + 1.0, SNAP_THRESHOLD + 1.0;
    ghost var hs, vs := HorizontalEdges(targets), VerticalEdges(targets);

    for i := 0 to |targets|
      invariant Candidate(bestDx, snappedX) == Best(Candidates(x, size, hs[..i]), Candidate(SNAP_THRESHOLD + 1.0, x))
      invariant Candidate(bestDy, snappedY) == Best(Candidates(y, size, vs[..i]), Candidate(SNAP_THRESHOLD + 1.0, y))
    {
      var t := targets[i];
      var tLeft, tRight := t.x, t.x + t.size;
      var tTop, tBottom := t.y, t.y + t.size;
      assert hs[i] == Edges(tLeft, tRight) && vs[i] == Edges(tTop, tBottom);

      bestDx, snappedX := AxisPass(x, size, hs, i, tLeft, tRight, bestDx, snappedX);
      bestDy, snappedY := AxisPass(y, size, vs, i, tTop, tBottom, bestDy, snappedY);
    }
    assert hs[..|targets|] == hs && vs[..|targets|] == vs;
    sx := if bestDx <= SNAP_THRESHOLD then snappedX else x;
    sy := if bestDy <= SNAP_THRESHOLD then snappedY else y;
  }

  /** The four comparisons of one target on one axis: the square's near
      and far edge (`p`, `p + size`) against the target's edges `lo` and
      `hi`, in the order the loop makes them. */
  method AxisPass(p: real, size: real, ghost edges: seq<Edges>, ghost i: int, lo: real, hi: real,
                  best: real, snapped: real) returns (best': real, snapped': real)
    requires 0 <= i < |edges| && edges[i] == Edges(lo, hi)
    requires Candidate(best, snapped) == Best(Candidates(p, size, edges[..i]), Candidate(SNAP_THRESHOLD + 1.0, p))
    ensures Candidate(best', snapped') == Best(Candidates(p, size, edges[..i + 1]), Candidate(SNAP_THRESHOLD + 1.0, p))
  {
    var myNear, myFar := p, p + size;
    var dNearLo := Abs(myNear - lo);
    var dNearHi := Abs(myNear - hi);
    var dFarLo := Abs(myFar - lo);
    var dFarHi := Abs(myFar - hi);
    best', snapped' := KeepNearer(best, snapped, dNearLo, lo);
    best', snapped' := KeepNearer(best', snapped', dNearHi, hi);
    best', snapped' := KeepNearer(best', snapped', dFarLo, lo - size);
    best', snapped' := KeepNearer(best', snapped', dFarHi, hi - size);
    SnapPass(p, size, edges, i, lo, hi, Candidate(best, snapped), Candidate(best', snapped'));
  }

  /** One comparison of the loop: `if (d < best) { best = d; snapped = v; }`. */
  method KeepNearer(best: real, snapped: real, d: real, v: real) returns (best': real, snapped': real)
    ensures Candidate(best', snapped') == Step(Candidate(best, snapped), Candidate(d, v))
  {
    best', snapped' := best, snapped;
    if d < best {
      best', snapped' := d, v;
    }
  }

  /** Extending the search by target `i` runs its four comparisons. */
  lemma SnapPass(p: real, size: real, edges: seq<Edges>, i: int, lo: real, hi: real, before: Candidate, after: Candidate)
    requires 0 <= i < |edges| && edges[i] == Edges(lo, hi)
    requires before == Best(Candidates(p, size, edges[..i]), Candidate(SNAP_THRESHOLD + 1.0, p))
    requires after == Step(Step(Step(Step(before, Candidate(Abs(p - lo), lo)), Candidate(Abs(p - hi), hi)),
                                Candidate(Abs(p + size - lo), lo - size)), Candidate(Abs(p + size - hi), hi - size))
    ensures after == Best(Candidates(p, size, edges[..i + 1]), Candidate(SNAP_THRESHOLD + 1.0, p))
  {
    var prefix := edges[..i + 1];
    assert prefix[..i] == edges[..i] && prefix[i] == Edges(lo, hi);
    BestOfTarget(p, size, prefix, before);
    assert AxisCandidates(p, size, prefix[i])
        == [Candidate(Abs(p - lo), lo), Candidate(Abs(p - hi), hi),
            Candidate(Abs(p + size - lo), lo - size), Candidate(Abs(p + size - hi), hi - size)];
  }

  lemma BestSnoc(cands: seq<Candidate>, c: Candidate, start: Candidate)
    ensures Best(cands + [c], start) == Step(Best(cands, start), c)
  {
    assert (cands + [c])[..|cands|] == cands;
  }

  /** Extending the search by one target runs its four comparisons. */
  lemma BestOfTarget(p: real, size: real, edges: seq<Edges>, before: Candidate)
    requires edges != []
    requires before == Best(Candidates(p, size, edges[..|edges| - 1]), Candidate(SNAP_THRESHOLD + 1.0, p))
    ensures var a := AxisCandidates(p, size, edges[|edges| - 1]);
      Best(Candidates(p, size, edges), Candidate(SNAP_THRESHOLD + 1.0, p))
        == Step(Step(Step(Step(before, a[0]), a[1]), a[2]), a[3])
  {
    var start := Candidate(SNAP_THRESHOLD + 1.0, p);
    var c0 := Candidates(p, size, edges[..|edges| - 1]);
    var a := AxisCandidates(p, size, edges[|edges| - 1]);
    var c := Candidates(p, size, edges);
    assert c == c0 + [a[0]] + [a[1]] + [a[2]] + [a[3]];
    BestSnoc(c0 + [a[0]] + [a[1]] + [a[2]], a[3], start);
    BestSnoc(c0 + [a[0]] + [a[1]], a[2], start);
    BestSnoc(c0 + [a[0]], a[1], start);
    BestSnoc(c0, a[0], start);
  }

  // ---------------------------------------------------------------- drag

  /** One coordinate pulled into `[0, max - size]` (the lower bound wins
      when the square is wider than the bounds). */
  function ClampAxis(v: real, max: real, size: real): (r: real)
    ensures r >= 0.0
    ensures size <= max ==> r + size <= max
    ensures 0.0 <= v && v + size <= max ==> r == v
  {
    Max(0.0, Min(max - size, v))
  }

  /** The position a drag move commits: the pointer delta applied to the
      origin, clamped, snapped when there are targets, and clamped again. */
  function DragTo(o: DragOrigin, clientX: real, clientY: real, size: real, b: Bounds, targets: seq<Position>): (r: Point)
    ensures r.x >= 0.0 && r.y >= 0.0
    ensures size <= b.maxWidth ==> r.x + size <= b.maxWidth
    ensures size <= b.maxHeight ==> r.y + size <= b.maxHeight
    ensures targets == [] ==>
      r == Point(ClampAxis(o.origX + (clientX - o.startX), b.maxWidth, size),
                 ClampAxis(o.origY + (clientY - o.startY), b.maxHeight, size))
  {
    var newX := ClampAxis(o.origX + (clientX - o.startX), b.maxWidth, size);
    var newY := ClampAxis(o.origY + (clientY - o.startY), b.maxHeight, size);
    if |targets| > 0 then
      Point(ClampAxis(SnapAxis(newX, size, HorizontalEdges(targets)), b.maxWidth, size),
            ClampAxis(SnapAxis(newY, size, VerticalEdges(targets)), b.maxHeight, size))
    else
      Point(newX, newY)
  }

  // -------------------------------------------------------------- resize

  predicate IsCorner(corner: string)
  {
    corner == "se" || corner == "sw" || corner == "ne" || corner == "nw"
  }

  /** The largest side the resized square may take with the corner
      opposite the handle fixed: the distance from that corner to the
      bounds (or to the origin) on the two sides the square grows toward. */
  function Room(o: ResizeOrigin, b: Bounds): real
    requires IsCorner(o.corner)
  {
    var right := b.maxWidth - o.origX;
    var bottom := b.maxHeight - o.origY;
    var left := o.origX + o.origSize;
    var top := o.origY + o.origSize;
    if o.corner == "se" then Min(right, bottom)
    else if o.corner == "sw" then Min(left, bottom)
    else if o.corner == "ne" then Min(right, top)
    else Min(left, top)
  }

  /** The square a resize move commits. The pointer delta is projected on
      the handle's growth direction, the size is raised to `MIN_SIZE` and
      cut to the room available, and the corner opposite the handle stays
      where it was. An unknown handle name keeps the origin. */
  function ResizeTo(o: ResizeOrigin, clientX: real, clientY: real, b: Bounds): (r: Position)
    ensures o.corner == "se" ==> r.x == o.origX && r.y == o.origY
    ensures o.corner == "sw" ==> r.x + r.size == o.origX + o.origSize && r.y == o.origY
    ensures o.corner == "ne" ==> r.x == o.origX && r.y + r.size == o.origY + o.origSize
    ensures o.corner == "nw" ==> r.x + r.size == o.origX + o.origSize && r.y + r.size == o.origY + o.origSize
    ensures !IsCorner(o.corner) ==> r == Position(o.origX, o.origY, o.origSize)
    ensures IsCorner(o.corner) ==> Min(MIN_SIZE, Room(o, b)) <= r.size <= Room(o, b)
    ensures 0.0 <= o.origX && 0.0 <= o.origY && 0.0 <= o.origSize &&
            o.origX + o.origSize <= b.maxWidth && o.origY + o.origSize <= b.maxHeight ==>
      0.0 <= r.x && 0.0 <= r.y && 0.0 <= r.size && r.x + r.size <= b.maxWidth && r.y + r.size <= b.maxHeight
  {
    var dx := clientX - o.startX;
    var dy := clientY - o.startY;
    var ox, oy, os := o.origX, o.origY, o.origSize;
    if o.corner == "se" then
      var size := Min3(Max(MIN_SIZE, os + Max(dx, dy)), b.maxWidth - ox, b.maxHeight - oy);
      Position(ox, oy, size)
    else if o.corner == "sw" then
      var size := Min3(Max(MIN_SIZE, os + Max(-dx, dy)), ox + os, b.maxHeight - oy);
      Position(ox + os - size, oy, size)
    else if o.corner == "ne" then
      var size := Min3(Max(MIN_SIZE, os + Max(dx, -dy)), b.maxWidth - ox, oy + os);
      Position(ox, oy + os - size, size)
    else if o.corner == "nw" then
      var size := Min3(Max(MIN_SIZE, os + Max(-dx, -dy)), ox + os, oy + os);
      Position(ox + os - size, oy + os - size, size)
    else
      Position(ox, oy, os)
  }

  // ------------------------------------------------------- the controller

  /** The two transient records of `useDragResize`. A move handler does
      nothing while its record is empty. */
  class DragResizeState {
    var dragStart: Option<DragOrigin>
    var resizeStart: Option<ResizeOrigin>

    constructor ()
      ensures dragStart == None && resizeStart == None
    {
      dragStart := None;
      resizeStart := None;
    }

    method DragPointerDown(clientX: real, clientY: real, position: Position)
      modifies this
      ensures dragStart == Some(DragOrigin(clientX, clientY, position.x, position.y))
      ensures resizeStart == old(resizeStart)
    {
      dragStart := Some(DragOrigin(clientX, clientY, position.x, position.y));
    }

    /** The patch the move sends to the store, or `None` when no drag is
        in progress. */
    method DragPointerMove(clientX: real, clientY: real, size: real, b: Bounds, targets: seq<Position>)
      returns (patch: Option<Patch>)
      ensures dragStart.None? ==> patch == None
      ensures dragStart.Some? ==>
        var p := DragTo(dragStart.value, clientX, clientY, size, b, targets);
        patch == Some(Patch(Some(p.x), Some(p.y), None))
    {
      if dragStart.None? {
        return None;
      }
      var o := dragStart.value;
      var dx := clientX - o.startX;
      var dy := clientY - o.startY;
      var newX := ClampAxis(o.origX + dx, b.maxWidth, size);
      var newY := ClampAxis(o.origY + dy, b.maxHeight, size);
      if |targets| > 0 {
        var sx, sy := ApplySnap(newX, newY, size, targets);
        newX := ClampAxis(sx, b.maxWidth, size);
        newY := ClampAxis(sy, b.maxHeight, size);
      }
      patch := Some(Patch(Some(newX), Some(newY), None));
    }

    method DragPointerUp()
      modifies this
      ensures dragStart == None && resizeStart == old(resizeStart)
    {
      dragStart := None;
    }

    method ResizePointerDown(clientX: real, clientY: real, position: Position, corner: string)
      modifies this
      ensures resizeStart == Some(ResizeOrigin(clientX, clientY, position.x, position.y, position.size, corner))
      ensures dragStart == old(dragStart)
    {
      resizeStart := Some(ResizeOrigin(clientX, clientY, position.x, position.y, position.size, corner));
    }

    /** The patch the move sends to the store, or `None` when no resize is
        in progress. */
    method ResizePointerMove(clientX: real, clientY: real, b: Bounds) returns (patch: Option<Patch>)
      ensures resizeStart.None? ==> patch == None
      ensures resizeStart.Some? ==>
        var p := ResizeTo(resizeStart.value, clientX, clientY, b);
        patch == Some(Patch(Some(p.x), Some(p.y), Some(p.size)))
    {
      if resizeStart.None? {
        return None;
      }
      var p := ResizeTo(resizeStart.value, clientX, clientY, b);
      patch := Some(Patch(Some(p.x), Some(p.y), Some(p.size)));
    }

    method ResizePointerUp()
      modifies this
      ensures resizeStart == None && dragStart == old(dragStart)
    {
      resizeStart := None;
    }
  }
}
