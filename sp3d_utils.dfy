/** The placement engine of the older strip-packing prototype: the same no-fit
    boxes as the main engine, events sorted with enter before exit, an overlap
    grid built on nested lists and prefix-summed in place, and a scan for the
    first free cell whose three lower neighbours are occupied. */
module Sp3dUtils {
  import opened Failures
  import opened Geometry
  import opened Grid
  import opened Sorting
  import opened Sweep
  import opened Placement

  // ---- calc_events ----

  /** The sort key `(coord, -sign)`: by coordinate, and at one coordinate lower faces (+1) first. */
  predicate EnterFirstLe(e: Event, f: Event) {
    e.coord < f.coord || (e.coord == f.coord && e.sign >= f.sign)
  }

  predicate IdxLe(e: Event, f: Event) {
    e.idx <= f.idx
  }

  lemma EnterFirstLeIsTotalPreorder()
    ensures TotalPreorder(EnterFirstLe)
  {
  }

  /** One axis of `calc_events`: the face events stably sorted by `(coord, -sign)`. */
  function EnterFirstEvents(nfps: seq<Box>, axis: int): seq<Event> {
    Sort(AxisEvents(nfps, axis), EnterFirstLe)
  }

  /** In the unsorted list two events with one key are faces of one kind, listed by box index. */
  lemma AxisEventsTiesByIndex(nfps: seq<Box>, axis: int)
    ensures TiesOrdered(AxisEvents(nfps, axis), EnterFirstLe, IdxLe)
  {
    var evs := AxisEvents(nfps, axis);
    var n := |nfps|;
    forall i, j | 0 <= i < j < |evs| && EnterFirstLe(evs[i], evs[j]) && EnterFirstLe(evs[j], evs[i])
      ensures IdxLe(evs[i], evs[j])
    {
      if j < n {
        assert Key(evs[i]) == (i, 1) && Key(evs[j]) == (j, 1);
      } else if n <= i {
        assert Key(evs[i]) == (i - n, -1) && Key(evs[j]) == (j - n, -1);
      }
    }
  }

  /** The sorted events are the 2n face events, ordered by coordinate with lower
      faces first at a shared coordinate, and, sorting being stable, faces of one
      kind at one coordinate stay in box order. */
  lemma EnterFirstOrder(nfps: seq<Box>, axis: int)
    ensures var evs := EnterFirstEvents(nfps, axis);
            && multiset(evs) == multiset(AxisEvents(nfps, axis))
            && (forall p, q :: 0 <= p < q < |evs| ==>
                  evs[p].coord < evs[q].coord || (evs[p].coord == evs[q].coord && evs[p].sign >= evs[q].sign))
            && (forall p, q :: 0 <= p < q < |evs| && evs[p].coord == evs[q].coord && evs[p].sign == evs[q].sign ==>
                  evs[p].idx <= evs[q].idx)
  {
    var evs := EnterFirstEvents(nfps, axis);
    EnterFirstLeIsTotalPreorder();
    SortSorted(AxisEvents(nfps, axis), EnterFirstLe);
    AxisEventsTiesByIndex(nfps, axis);
    SortTiesOrdered(AxisEvents(nfps, axis), EnterFirstLe, IdxLe);
    forall p, q | 0 <= p < q < |evs|
      ensures evs[p].coord < evs[q].coord || (evs[p].coord == evs[q].coord && evs[p].sign >= evs[q].sign)
    {
      assert EnterFirstLe(evs[p], evs[q]);
    }
    forall p, q | 0 <= p < q < |evs| && evs[p].coord == evs[q].coord && evs[p].sign == evs[q].sign
      ensures evs[p].idx <= evs[q].idx
    {
      assert EnterFirstLe(evs[p], evs[q]) && EnterFirstLe(evs[q], evs[p]);
    }
  }

  /** The three sorted lists are sweeps of the boxes: every rank lookup succeeds. */
  lemma EnterFirstEventsOf(nfps: seq<Box>)
    ensures EventsOf(nfps, EnterFirstEvents(nfps, 0), EnterFirstEvents(nfps, 1), EnterFirstEvents(nfps, 2))
  {
    SortedFaces(nfps, 0, EnterFirstLe);
    SortedFaces(nfps, 1, EnterFirstLe);
    SortedFaces(nfps, 2, EnterFirstLe);
    EnterFirstOrder(nfps, 0);
    EnterFirstOrder(nfps, 1);
    EnterFirstOrder(nfps, 2);
  }

  // ---- cumsum ----

  /** The inclusive prefix sum of g over x' <= x, y' <= y, z' <= z, summed along z, then y, then x. */
  ghost function Cumulative(g: (int, int, int) -> int): (int, int, int) -> int {
    var gz := (i, j, k) => PrefZ(g, i, j, k);
    var gy := (i, j, k) => PrefY(gz, i, j, k);
    (i, j, k) => PrefX(gy, i, j, k)
  }

  /** `cumsum`: the grid becomes, in place, the inclusive prefix sum of its old
      values. The grid's sizes are read through `count[0]` and `count[0][0]`, so a
      grid without a first row raises instead. */
  method Cumsum(a: array3<int>, ghost g: (int, int, int) -> int) returns (r: Result<()>)
    requires Holds(a, g)
    modifies a
    ensures r.Err? <==> a.Length0 == 0 || a.Length1 == 0
    ensures r.Err? ==> r.error == EmptyGrid && unchanged(a)
    ensures r.Ok? ==> Holds(a, Cumulative(g))
  {
    if a.Length0 == 0 || a.Length1 == 0 {
      return Err(EmptyGrid);
    }
    ghost var gz := (i, j, k) => PrefZ(g, i, j, k);
    ghost var gy := (i, j, k) => PrefY(gz, i, j, k);
    CumsumZ(a, g);
    assert Holds(a, gz);
    CumsumY(a, gz);
    assert Holds(a, gy);
    CumsumX(a, gy);
    assert Holds(a, Cumulative(g));
    r := Ok(());
  }

  lemma {:induction false} PrefYAgree(g1: (int, int, int) -> int, g2: (int, int, int) -> int, i: int, j: int, k: int)
    requires j >= 0 && forall j' :: 0 <= j' <= j ==> g1(i, j', k) == g2(i, j', k)
    decreases j
    ensures PrefY(g1, i, j, k) == PrefY(g2, i, j, k)
  {
    if j > 0 {
      PrefYAgree(g1, g2, i, j - 1, k);
    }
  }

  lemma {:induction false} PrefXAgree(g1: (int, int, int) -> int, g2: (int, int, int) -> int, i: int, j: int, k: int)
    requires i >= 0 && forall i' :: 0 <= i' <= i ==> g1(i', j, k) == g2(i', j, k)
    decreases i
    ensures PrefX(g1, i, j, k) == PrefX(g2, i, j, k)
  {
    if i > 0 {
      PrefXAgree(g1, g2, i - 1, j, k);
    }
  }

  /** Prefix-summing the eight corner stamps of every box gives, at each cell, the
      fully prefix-summed field, which counts the boxes covering the cell. */
  lemma CumulativeOfStamps(rs: seq<RankBox>, i: int, j: int, k: int)
    requires NonNegative(rs) && i >= 0 && j >= 0 && k >= 0
    ensures Cumulative(FieldFn(rs, Delta, Delta, Delta))(i, j, k) == Field(rs, Prefix, Prefix, Prefix, i, j, k)
  {
    var g := FieldFn(rs, Delta, Delta, Delta);
    var gz := (i, j, k) => PrefZ(g, i, j, k);
    var gy := (i, j, k) => PrefY(gz, i, j, k);
    forall i', j' | 0 <= i' <= i && 0 <= j' <= j
      ensures gz(i', j', k) == Field(rs, Delta, Delta, Prefix, i', j', k)
    {
      PrefZField(rs, Delta, Delta, i', j', k);
    }
    forall i' | 0 <= i' <= i ensures gy(i', j, k) == Field(rs, Delta, Prefix, Prefix, i', j, k) {
      PrefYAgree(gz, FieldFn(rs, Delta, Delta, Prefix), i', j, k);
      PrefYField(rs, Delta, Prefix, i', j, k);
    }
    PrefXAgree(gy, FieldFn(rs, Delta, Prefix, Prefix), i, j, k);
    PrefXField(rs, Prefix, Prefix, i, j, k);
  }

  // ---- calc_overlaps ----

  /** One iteration of the stamping loop: the eight stamps of box idx. */
  method StampCount(count: array3<int>, ghost rs: seq<RankBox>, idx: nat, box: RankBox)
    requires Cube(count, count.Length0) && idx < |rs| && box == rs[idx] && InRange(box, count.Length0)
    requires Holds(count, FieldFn(rs[..idx], Delta, Delta, Delta))
    modifies count
    ensures Holds(count, FieldFn(rs[..idx + 1], Delta, Delta, Delta))
  {
    assert rs[..idx + 1][..idx] == rs[..idx];
    assert rs[..idx + 1][idx] == box;
    StampBox(count, box);
  }

  /** `calc_overlaps`: a zero grid of side 2n, the eight stamps of every box at
      its face ranks, then `cumsum`. Cell (i, j, k) of the result is the fully
      prefix-summed field, the number of boxes covering it when the boxes are
      proper; with no boxes at all `cumsum` raises. */
  method CalcOverlaps(n: nat, xs: seq<Event>, ys: seq<Event>, zs: seq<Event>) returns (r: Result<array3<int>>)
    requires Ranked(xs, n) && Ranked(ys, n) && Ranked(zs, n)
    ensures r.Err? <==> n == 0
    ensures r.Err? ==> r.error == EmptyGrid
    ensures r.Ok? ==> fresh(r.value) && Cube(r.value, 2 * n)
    ensures r.Ok? ==> Holds(r.value, FieldFn(RanksOf(n, xs, ys, zs), Prefix, Prefix, Prefix))
  {
    ghost var rs := RanksOf(n, xs, ys, zs);
    var count := StampAll(n, xs, ys, zs);
    var done := Accumulate(count, rs);
    if done.Err? {
      return Err(done.error);
    }
    r := Ok(count);
  }

  /** The stamping loop of `calc_overlaps`: +1 and -1 at the corners of every box's ranks. */
  method StampAll(n: nat, xs: seq<Event>, ys: seq<Event>, zs: seq<Event>) returns (count: array3<int>)
    requires Ranked(xs, n) && Ranked(ys, n) && Ranked(zs, n)
    ensures fresh(count) && Cube(count, 2 * n)
    ensures Holds(count, FieldFn(RanksOf(n, xs, ys, zs), Delta, Delta, Delta))
  {
    ghost var rs := RanksOf(n, xs, ys, zs);
    var xOrder, yOrder, zOrder := RankMap(xs), RankMap(ys), RankMap(zs);
    count := Zeros(2 * n, rs, Delta);
    var idx := 0;
    while idx < n
      invariant 0 <= idx <= n
      invariant fresh(count) && Cube(count, 2 * n)
      invariant Holds(count, FieldFn(rs[..idx], Delta, Delta, Delta))
    {
      var box := ObstacleRanks(n, xs, ys, zs, xOrder, yOrder, zOrder, idx);
      StampCount(count, rs, idx, box);
      idx := idx + 1;
    }
    assert rs[..n] == rs;
  }

  /** The `cumsum` step of `calc_overlaps`: stamped corners become overlap counts. */
  method Accumulate(count: array3<int>, ghost rs: seq<RankBox>) returns (r: Result<()>)
    requires NonNegative(rs) && Holds(count, FieldFn(rs, Delta, Delta, Delta))
    modifies count
    ensures r.Err? <==> count.Length0 == 0 || count.Length1 == 0
    ensures r.Err? ==> r.error == EmptyGrid
    ensures r.Ok? ==> Holds(count, FieldFn(rs, Prefix, Prefix, Prefix))
  {
    r := Cumsum(count, FieldFn(rs, Delta, Delta, Delta));
    if r.Ok? {
      forall i, j, k | InGrid(count, i, j, k) ensures count[i, j, k] == Field(rs, Prefix, Prefix, Prefix, i, j, k) {
        CumulativeOfStamps(rs, i, j, k);
      }
    }
  }

  // ---- calc_front_and_corner ----

  /** The scan's test at a cell of index at least 1: no box covers the cell and a
      box covers each of its three lower neighbours. */
  predicate Resting(rs: seq<RankBox>, i: int, j: int, k: int) {
    && Overlap(rs, i, j, k) == 0
    && Overlap(rs, i - 1, j, k) > 0
    && Overlap(rs, i, j - 1, k) > 0
    && Overlap(rs, i, j, k - 1) > 0
  }

  function RestingAt(rs: seq<RankBox>): (int, int, int) -> bool {
    (i, j, k) => Resting(rs, i, j, k)
  }

  /** The cell the triple loop stops at: the first resting cell of [1, 2n)^3 in
      (x, y, z) order; no boxes make an empty grid, no resting cell raises. */
  function RestingCell(n: nat, xs: seq<Event>, ys: seq<Event>, zs: seq<Event>): (r: Result<Cell>)
    requires Ranked(xs, n) && Ranked(ys, n) && Ranked(zs, n)
    ensures r.Ok? ==> InCube(r.value, 1, 2 * n)
    ensures r == Err(EmptyGrid) <==> n == 0
    ensures r.Ok? || r == Err(EmptyGrid) || r == Err(NoStablePointFound)
  {
    var rs := RanksOf(n, xs, ys, zs);
    FirstCellIsLeast(RestingAt(rs), 1, 2 * n);
    if n == 0 then Err(EmptyGrid)
    else match FirstCell(RestingAt(rs), 1, 2 * n, 1, 1, 1)
      case Some(c) => Ok(c)
      case None => Err(NoStablePointFound)
  }

  /** The cell found rests and no cell before it in (x, y, z) order does; the
      search fails with `NoStablePointFound` exactly when no cell of the grid rests. */
  lemma RestingCellIsLeast(n: nat, xs: seq<Event>, ys: seq<Event>, zs: seq<Event>)
    requires Ranked(xs, n) && Ranked(ys, n) && Ranked(zs, n)
    ensures var rs := RanksOf(n, xs, ys, zs);
            var r := RestingCell(n, xs, ys, zs);
            && (r.Ok? ==>
                  && Resting(rs, r.value.0, r.value.1, r.value.2)
                  && forall i, j, k :: InCube((i, j, k), 1, 2 * n) && LexLess((i, j, k), r.value) ==> !Resting(rs, i, j, k))
            && (r == Err(NoStablePointFound) <==>
                  n > 0 && forall i, j, k :: InCube((i, j, k), 1, 2 * n) ==> !Resting(rs, i, j, k))
  {
    FirstCellIsLeast(RestingAt(RanksOf(n, xs, ys, zs)), 1, 2 * n);
  }

  /** The triple loop of `calc_front_and_corner` over the overlap grid, x outermost,
      every index from 1, returning at the first resting cell. */
  method ScanResting(overlaps: array3<int>, ghost rs: seq<RankBox>) returns (r: Option<Cell>)
    requires Cube(overlaps, overlaps.Length0) && Holds(overlaps, FieldFn(rs, Prefix, Prefix, Prefix))
    ensures r == FirstCell(RestingAt(rs), 1, overlaps.Length0, 1, 1, 1)
  {
    var s := overlaps.Length0;
    ghost var p := RestingAt(rs);
    var x := 1;
    while x < s
      invariant 1 <= x
      invariant FirstCell(p, 1, s, x, 1, 1) == FirstCell(p, 1, s, 1, 1, 1)
      decreases s - x
    {
      var y := 1;
      while y < s
        invariant 1 <= y
        invariant FirstCell(p, 1, s, x, y, 1) == FirstCell(p, 1, s, 1, 1, 1)
        decreases s - y
      {
        var z := 1;
        while z < s
          invariant 1 <= z
          invariant FirstCell(p, 1, s, x, y, z) == FirstCell(p, 1, s, 1, 1, 1)
          decreases s - z
        {
          assert InGrid(overlaps, x, y, z) && InGrid(overlaps, x - 1, y, z);
          assert InGrid(overlaps, x, y - 1, z) && InGrid(overlaps, x, y, z - 1);
          var settlable := overlaps[x, y, z] == 0;
          var stable := overlaps[x - 1, y, z] > 0 && overlaps[x, y - 1, z] > 0 && overlaps[x, y, z - 1] > 0;
          if settlable && stable {
            return Some((x, y, z));
          }
          z := z + 1;
        }
        y := y + 1;
      }
      x := x + 1;
    }
    r := None;
  }

  /** The three event lists of `calc_events`. */
  function EnterFirstSweeps(nfps: seq<Box>): (r: (seq<Event>, seq<Event>, seq<Event>))
    ensures EventsOf(nfps, r.0, r.1, r.2)
  {
    EnterFirstEventsOf(nfps);
    (EnterFirstEvents(nfps, 0), EnterFirstEvents(nfps, 1), EnterFirstEvents(nfps, 2))
  }

  /** The read-out of `calc_front_and_corner` once the events are sorted: the
      corner is the resting cell's x, y and z event coordinates, and the front the
      corner's x plus the new block's depth. */
  function ReadOut(depth: int, n: nat, xs: seq<Event>, ys: seq<Event>, zs: seq<Event>): (r: Result<(int, Corner)>)
    requires Ranked(xs, n) && Ranked(ys, n) && Ranked(zs, n)
    ensures r.Ok? ==> r.value.0 == r.value.1.x + depth
  {
    match RestingCell(n, xs, ys, zs)
    case Err(e) => Err(e)
    case Ok(c) => Ok((xs[c.0].coord + depth, Corner(xs[c.0].coord, ys[c.1].coord, zs[c.2].coord)))
  }

  /** The read-out as the prototype writes it: the corner's y and z are read from
      the x events. */
  function ReadOutAsWritten(depth: int, n: nat, xs: seq<Event>, ys: seq<Event>, zs: seq<Event>): (r: Result<(int, Corner)>)
    requires Ranked(xs, n) && Ranked(ys, n) && Ranked(zs, n)
    ensures r.Ok? ==> r.value.0 == r.value.1.x + depth
  {
    match RestingCell(n, xs, ys, zs)
    case Err(e) => Err(e)
    case Ok(c) => Ok((xs[c.0].coord + depth, Corner(xs[c.0].coord, xs[c.1].coord, xs[c.2].coord)))
  }

  /** `calc_front_and_corner` with the corner read off each axis's own events. */
  function FrontAndCorner(newShape: Shape, shapes: seq<Shape>, corners: seq<Corner>): (r: Result<(int, Corner)>)
    ensures r.Ok? ==> r.value.0 == r.value.1.x + newShape.depth
    ensures r == Err(EmptyGrid) <==> Min(|shapes|, |corners|) == 0
    ensures r.Ok? || r == Err(EmptyGrid) || r == Err(NoStablePointFound)
  {
    var nfps := NoFitPolys(newShape, shapes, corners);
    var s := EnterFirstSweeps(nfps);
    ReadOut(newShape.depth, |nfps|, s.0, s.1, s.2)
  }

  /** `calc_front_and_corner` as the prototype writes it. */
  function FrontAndCornerAsWritten(newShape: Shape, shapes: seq<Shape>, corners: seq<Corner>): (r: Result<(int, Corner)>)
    ensures r.Ok? ==> r.value.0 == r.value.1.x + newShape.depth
  {
    var nfps := NoFitPolys(newShape, shapes, corners);
    var s := EnterFirstSweeps(nfps);
    ReadOutAsWritten(newShape.depth, |nfps|, s.0, s.1, s.2)
  }

  /** The overlap grid, the scan, and the corner read off the chosen cell. */
  method CalcReadOut(depth: int, n: nat, xs: seq<Event>, ys: seq<Event>, zs: seq<Event>) returns (r: Result<(int, Corner)>)
    requires Ranked(xs, n) && Ranked(ys, n) && Ranked(zs, n)
    ensures r == ReadOut(depth, n, xs, ys, zs)
  {
    var overlaps := CalcOverlaps(n, xs, ys, zs);
    if overlaps.Err? {
      return Err(overlaps.error);
    }
    ghost var rs := RanksOf(n, xs, ys, zs);
    var found := ScanResting(overlaps.value, rs);
    if found.None? {
      return Err(NoStablePointFound);
    }
    var c := found.value;
    FirstCellIsLeast(RestingAt(rs), 1, 2 * n);
    var xCoord, yCoord, zCoord := xs[c.0].coord, ys[c.1].coord, zs[c.2].coord;
    r := Ok((xCoord + depth, Corner(xCoord, yCoord, zCoord)));
  }

  /** `calc_front_and_corner`: no-fit boxes, events, then the read-out. */
  method CalcFrontAndCorner(newShape: Shape, shapes: seq<Shape>, corners: seq<Corner>) returns (r: Result<(int, Corner)>)
    ensures r == FrontAndCorner(newShape, shapes, corners)
  {
    var nfps := NoFitPolys(newShape, shapes, corners);
    var s := EnterFirstSweeps(nfps);
    r := CalcReadOut(newShape.depth, |nfps|, s.0, s.1, s.2);
  }

  // ---- what the placement means ----

  /** With positive shapes, the corner chosen never makes the new block share an
      interior point with an obstacle. */
  lemma FrontAndCornerAvoidsObstacles(newShape: Shape, shapes: seq<Shape>, corners: seq<Corner>)
    requires newShape.Positive() && forall o :: 0 <= o < |shapes| ==> shapes[o].Positive()
    ensures var r := FrontAndCorner(newShape, shapes, corners);
            r.Ok? ==> forall o :: 0 <= o < Min(|shapes|, |corners|) ==> !Intersects(r.value.1, newShape, corners[o], shapes[o])
  {
    var nfps := NoFitPolys(newShape, shapes, corners);
    var n := |nfps|;
    var (xs, ys, zs) := EnterFirstSweeps(nfps);
    var rc := RestingCell(n, xs, ys, zs);
    RestingCellIsLeast(n, xs, ys, zs);
    if rc.Ok? {
      var (i, j, k) := rc.value;
      var rs := RanksOf(n, xs, ys, zs);
      NoFitPolysProper(newShape, shapes, corners);
      RanksProper(nfps, xs, ys, zs);
      FieldCountsCovers(rs, i, j, k);
      UncoveredCellIsOutside(nfps, xs, ys, zs, i, j, k);
    }
  }

  // ---- the corner as written ----

  function ShiftSideways(corners: seq<Corner>, d: int): (r: seq<Corner>)
    ensures |r| == |corners| && forall o :: 0 <= o < |r| ==> r[o] == Corner(corners[o].x, corners[o].y + d, corners[o].z)
  {
    seq(|corners|, o requires 0 <= o < |corners| => Corner(corners[o].x, corners[o].y + d, corners[o].z))
  }

  function MoveEvent(d: int): Event -> Event {
    (e: Event) => Event(e.coord + d, e.sign, e.idx)
  }

  /** The rank maps look at keys only, so moving every event leaves them alone. */
  lemma {:induction false} RankMapMoved(evs: seq<Event>, d: int)
    ensures RankMap(Apply(evs, MoveEvent(d))) == RankMap(evs)
  {
    if evs != [] {
      var moved := Apply(evs, MoveEvent(d));
      assert moved[..|moved| - 1] == Apply(evs[..|evs| - 1], MoveEvent(d));
      RankMapMoved(evs[..|evs| - 1], d);
      assert Key(moved[|moved| - 1]) == Key(evs[|evs| - 1]);
    }
  }

  /** Moving the obstacles sideways by d moves the y faces of their no-fit boxes by d. */
  lemma AxisEventsMoved(newShape: Shape, shapes: seq<Shape>, corners: seq<Corner>, d: int)
    ensures var nfps := NoFitPolys(newShape, shapes, corners);
            var moved := NoFitPolys(newShape, shapes, ShiftSideways(corners, d));
            && AxisEvents(moved, 0) == AxisEvents(nfps, 0)
            && AxisEvents(moved, 1) == Apply(AxisEvents(nfps, 1), MoveEvent(d))
            && AxisEvents(moved, 2) == AxisEvents(nfps, 2)
  {
    var nfps := NoFitPolys(newShape, shapes, corners);
    var moved := NoFitPolys(newShape, shapes, ShiftSideways(corners, d));
    assert |moved| == |nfps|;
    forall o | 0 <= o < |nfps|
      ensures Lower(moved[o], 0) == Lower(nfps[o], 0) && Upper(moved[o], 0) == Upper(nfps[o], 0)
      ensures Lower(moved[o], 1) == Lower(nfps[o], 1) + d && Upper(moved[o], 1) == Upper(nfps[o], 1) + d
      ensures Lower(moved[o], 2) == Lower(nfps[o], 2) && Upper(moved[o], 2) == Upper(nfps[o], 2)
    {
      assert moved[o] == NoFitBox(newShape, shapes[o], ShiftSideways(corners, d)[o]);
      assert nfps[o] == NoFitBox(newShape, shapes[o], corners[o]);
    }
    var a0, b0 := AxisEvents(nfps, 0), AxisEvents(moved, 0);
    var a1, b1 := AxisEvents(nfps, 1), AxisEvents(moved, 1);
    var a2, b2 := AxisEvents(nfps, 2), AxisEvents(moved, 2);
    assert forall p :: 0 <= p < |b0| ==> b0[p] == a0[p];
    assert forall p :: 0 <= p < |b1| ==> b1[p] == MoveEvent(d)(a1[p]);
    assert forall p :: 0 <= p < |b2| ==> b2[p] == a2[p];
  }

  /** Moving the obstacles sideways by d moves the y events by d and leaves the other two lists. */
  lemma SweepsMoved(newShape: Shape, shapes: seq<Shape>, corners: seq<Corner>, d: int)
    ensures var a := EnterFirstSweeps(NoFitPolys(newShape, shapes, corners));
            var b := EnterFirstSweeps(NoFitPolys(newShape, shapes, ShiftSideways(corners, d)));
            b.0 == a.0 && b.1 == Apply(a.1, MoveEvent(d)) && b.2 == a.2
  {
    var nfps := NoFitPolys(newShape, shapes, corners);
    AxisEventsMoved(newShape, shapes, corners, d);
    SortApply(AxisEvents(nfps, 1), EnterFirstLe, MoveEvent(d));
  }

  /** Moving one event list leaves its ranks alone. */
  lemma RanksMoved(n: nat, xs: seq<Event>, ys: seq<Event>, zs: seq<Event>, d: int)
    requires Ranked(xs, n) && Ranked(ys, n) && Ranked(zs, n)
    ensures Ranked(Apply(ys, MoveEvent(d)), n)
    ensures RanksOf(n, xs, Apply(ys, MoveEvent(d)), zs) == RanksOf(n, xs, ys, zs)
  {
    var ys' := Apply(ys, MoveEvent(d));
    RankMapMoved(ys, d);
    forall o | 0 <= o < n
      ensures HasKey(ys', o, 1) && HasKey(ys', o, -1)
    {
      assert HasKey(ys, o, 1) && HasKey(ys, o, -1);
    }
    var a, b := RanksOf(n, xs, ys', zs), RanksOf(n, xs, ys, zs);
    forall o | 0 <= o < n
      ensures a[o] == b[o]
    {
      assert Rank(ys', o, 1) == Rank(ys, o, 1) && Rank(ys', o, -1) == Rank(ys, o, -1);
    }
  }

  /** Both read-outs in terms of the cell found. */
  lemma ReadOutOfCell(depth: int, n: nat, xs: seq<Event>, ys: seq<Event>, zs: seq<Event>)
    requires Ranked(xs, n) && Ranked(ys, n) && Ranked(zs, n)
    ensures var rc := RestingCell(n, xs, ys, zs);
            && (rc.Err? ==> ReadOut(depth, n, xs, ys, zs) == Err(rc.error) == ReadOutAsWritten(depth, n, xs, ys, zs))
            && (rc.Ok? ==>
                  var c := rc.value;
                  && ReadOut(depth, n, xs, ys, zs) == Ok((xs[c.0].coord + depth, Corner(xs[c.0].coord, ys[c.1].coord, zs[c.2].coord)))
                  && ReadOutAsWritten(depth, n, xs, ys, zs) == Ok((xs[c.0].coord + depth, Corner(xs[c.0].coord, xs[c.1].coord, xs[c.2].coord))))
  {
  }

  /** The read-out as written looks at the y events only through the cell found. */
  lemma AsWrittenReadsX(depth: int, n: nat, xs: seq<Event>, ys: seq<Event>, ys': seq<Event>, zs: seq<Event>)
    requires Ranked(xs, n) && Ranked(ys, n) && Ranked(ys', n) && Ranked(zs, n)
    requires RestingCell(n, xs, ys', zs) == RestingCell(n, xs, ys, zs)
    ensures ReadOutAsWritten(depth, n, xs, ys', zs) == ReadOutAsWritten(depth, n, xs, ys, zs)
  {
    match RestingCell(n, xs, ys, zs)
    case Err(e) =>
    case Ok(c) =>
      var v := Ok((xs[c.0].coord + depth, Corner(xs[c.0].coord, xs[c.1].coord, xs[c.2].coord)));
      assert ReadOutAsWritten(depth, n, xs, ys, zs) == v;
  }

  /** On moved y events the read-out as written keeps its result, while the
      intended read-out moves its corner's y by d. */
  lemma ReadOutMoved(depth: int, n: nat, xs: seq<Event>, ys: seq<Event>, zs: seq<Event>, d: int)
    requires Ranked(xs, n) && Ranked(ys, n) && Ranked(zs, n)
    ensures Ranked(Apply(ys, MoveEvent(d)), n)
    ensures ReadOutAsWritten(depth, n, xs, Apply(ys, MoveEvent(d)), zs) == ReadOutAsWritten(depth, n, xs, ys, zs)
    ensures var a := ReadOut(depth, n, xs, ys, zs);
            var b := ReadOut(depth, n, xs, Apply(ys, MoveEvent(d)), zs);
            && (a.Err? ==> b == a)
            && (a.Ok? ==> b.Ok? && b.value.0 == a.value.0
                          && b.value.1.x == a.value.1.x && b.value.1.y == a.value.1.y + d && b.value.1.z == a.value.1.z)
  {
    var ys' := Apply(ys, MoveEvent(d));
    RanksMoved(n, xs, ys, zs, d);
    assert RestingCell(n, xs, ys', zs) == RestingCell(n, xs, ys, zs);
    AsWrittenReadsX(depth, n, xs, ys, ys', zs);
    ReadOutOfCell(depth, n, xs, ys, zs);
    ReadOutOfCell(depth, n, xs, ys', zs);
  }

  /** The defect of the corner as written: moving every obstacle sideways by any d
      leaves the returned corner where it was, while the corner read off the y
      events moves with the obstacles. */
  lemma AsWrittenCornerIgnoresSideways(newShape: Shape, shapes: seq<Shape>, corners: seq<Corner>, d: int)
    ensures FrontAndCornerAsWritten(newShape, shapes, ShiftSideways(corners, d)) == FrontAndCornerAsWritten(newShape, shapes, corners)
    ensures var a := FrontAndCorner(newShape, shapes, corners);
            var b := FrontAndCorner(newShape, shapes, ShiftSideways(corners, d));
            && (a.Err? ==> b == a)
            && (a.Ok? ==> b.Ok? && b.value.0 == a.value.0
                          && b.value.1.x == a.value.1.x && b.value.1.y == a.value.1.y + d && b.value.1.z == a.value.1.z)
  {
    var nfps := NoFitPolys(newShape, shapes, corners);
    var s := EnterFirstSweeps(nfps);
    SweepsMoved(newShape, shapes, corners, d);
    ReadOutMoved(newShape.depth, |nfps|, s.0, s.1, s.2, d);
  }
}
