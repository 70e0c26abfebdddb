/** The exact placement engine of src/utils.py: no-fit boxes, sweep events,
    the stamped and prefix-summed overlap grid, the choice of the canonical
    stable cell, and the score and corner of a placement. */
module Placement {
  import opened Failures
  import opened Geometry
  import opened Grid
  import opened Sorting
  import opened Sweep

  function Min(a: int, b: int): int {
    if a <= b then a else b
  }

  /** The new block with its back-left-bottom corner at c and the obstacle at `corner` share interior points. */
  predicate Intersects(c: Corner, newShape: Shape, corner: Corner, shape: Shape) {
    && c.x < corner.x + shape.depth && corner.x < c.x + newShape.depth
    && c.y < corner.y + shape.width && corner.y < c.y + newShape.width
    && c.z < corner.z + shape.height && corner.z < c.z + newShape.height
  }

  predicate StrictlyInside(c: Corner, b: Box) {
    b.back < c.x < b.front && b.left < c.y < b.right && b.bottom < c.z < b.top
  }

  function NoFitBox(newShape: Shape, shape: Shape, corner: Corner): Box {
    Box(corner.x - newShape.depth, corner.x + shape.depth,
        corner.y - newShape.width, corner.y + shape.width,
        corner.z - newShape.height, corner.z + shape.height)
  }

  /** One no-fit box per (shape, corner) pair, as `zip` pairs them: the corners
      at which the new block would overlap that obstacle are exactly the
      points strictly inside its no-fit box. */
  function NoFitPolys(newShape: Shape, shapes: seq<Shape>, corners: seq<Corner>): (r: seq<Box>)
    ensures |r| == Min(|shapes|, |corners|)
    ensures forall o, c :: 0 <= o < |r| ==> (StrictlyInside(c, r[o]) <==> Intersects(c, newShape, corners[o], shapes[o]))
  {
    seq(Min(|shapes|, |corners|), o requires 0 <= o < Min(|shapes|, |corners|) => NoFitBox(newShape, shapes[o], corners[o]))
  }

  predicate ProperBox(b: Box) {
    b.back < b.front && b.left < b.right && b.bottom < b.top
  }

  /** With a positive new shape and positive obstacles every no-fit box has positive extent on every axis. */
  lemma NoFitPolysProper(newShape: Shape, shapes: seq<Shape>, corners: seq<Corner>)
    requires newShape.Positive() && forall o :: 0 <= o < |shapes| ==> shapes[o].Positive()
    ensures forall o :: 0 <= o < Min(|shapes|, |corners|) ==> ProperBox(NoFitPolys(newShape, shapes, corners)[o])
  {
    var r := NoFitPolys(newShape, shapes, corners);
    forall o | 0 <= o < |r| ensures ProperBox(r[o]) {
      assert r[o] == NoFitBox(newShape, shapes[o], corners[o]);
      assert shapes[o].Positive();
    }
  }

  function Lower(b: Box, axis: int): int {
    if axis == 0 then b.back else if axis == 1 then b.left else b.bottom
  }

  function Upper(b: Box, axis: int): int {
    if axis == 0 then b.front else if axis == 1 then b.right else b.top
  }

  /** e is the lower (+1) or upper (-1) face of one of the boxes along the axis. */
  predicate FaceEvent(nfps: seq<Box>, axis: int, e: Event) {
    && 0 <= e.idx < |nfps|
    && ((e.sign == 1 && e.coord == Lower(nfps[e.idx], axis)) || (e.sign == -1 && e.coord == Upper(nfps[e.idx], axis)))
  }

  /** The unsorted events of one axis: every lower face, then every upper face, in box order. */
  function AxisEvents(nfps: seq<Box>, axis: int): (evs: seq<Event>)
    ensures |evs| == 2 * |nfps|
    ensures forall p :: 0 <= p < |evs| ==> FaceEvent(nfps, axis, evs[p])
    ensures forall p :: 0 <= p < |nfps| ==> Key(evs[p]) == (p, 1)
    ensures forall p :: |nfps| <= p < |evs| ==> Key(evs[p]) == (p - |nfps|, -1)
  {
    seq(|nfps|, o requires 0 <= o < |nfps| => Event(Lower(nfps[o], axis), 1, o))
      + seq(|nfps|, o requires 0 <= o < |nfps| => Event(Upper(nfps[o], axis), -1, o))
  }

  function SortedEvents(nfps: seq<Box>, axis: int): seq<Event> {
    Sort(AxisEvents(nfps, axis), TupleLe)
  }

  /** `calc_events`: the three sorted event lists. */
  function CalcEvents(nfps: seq<Box>): (seq<Event>, seq<Event>, seq<Event>) {
    (SortedEvents(nfps, 0), SortedEvents(nfps, 1), SortedEvents(nfps, 2))
  }

  /** Each sorted event list is a permutation of the 2n face events ordered by `(coord, sign, idx)`. */
  lemma SortedEventsPermutation(nfps: seq<Box>, axis: int)
    ensures multiset(SortedEvents(nfps, axis)) == multiset(AxisEvents(nfps, axis))
    ensures Sorted(SortedEvents(nfps, axis), TupleLe) && CoordSorted(SortedEvents(nfps, axis))
  {
    TupleLeIsTotalPreorder();
    SortSorted(AxisEvents(nfps, axis), TupleLe);
    TupleSortedIsCoordSorted(SortedEvents(nfps, axis));
  }

  /** At equal coordinates every exit event (-1) precedes every enter event (+1). */
  lemma SortedEventsExitFirst(nfps: seq<Box>, axis: int)
    ensures var evs := SortedEvents(nfps, axis);
      forall p, q :: 0 <= p < q < |evs| && evs[p].coord == evs[q].coord && evs[p].sign == 1 ==> evs[q].sign == 1
  {
    var evs := SortedEvents(nfps, axis);
    SortedEventsPermutation(nfps, axis);
    forall p, q | 0 <= p < q < |evs| && evs[p].coord == evs[q].coord && evs[p].sign == 1 ensures evs[q].sign == 1 {
      assert TupleLe(evs[p], evs[q]);
      assert evs[q] in multiset(AxisEvents(nfps, axis));
    }
  }

  /** Sorting the face events by any order keeps them the faces of the boxes,
      both faces of every box among them, so every rank lookup succeeds. */
  lemma SortedFaces(nfps: seq<Box>, axis: int, le: (Event, Event) -> bool)
    ensures var evs := Sort(AxisEvents(nfps, axis), le);
            && Ranked(evs, |nfps|)
            && forall p :: 0 <= p < |evs| ==> FaceEvent(nfps, axis, evs[p])
  {
    var raw := AxisEvents(nfps, axis);
    var evs := Sort(raw, le);
    forall p | 0 <= p < |evs| ensures FaceEvent(nfps, axis, evs[p]) {
      assert evs[p] in multiset(raw);
    }
    forall o | 0 <= o < |nfps| ensures HasKey(evs, o, 1) && HasKey(evs, o, -1) {
      assert raw[o] in multiset(evs);
      assert raw[|nfps| + o] in multiset(evs);
      var p :| 0 <= p < |evs| && evs[p] == raw[o];
      var q :| 0 <= q < |evs| && evs[q] == raw[|nfps| + o];
      assert Key(evs[p]) == (o, 1) && Key(evs[q]) == (o, -1);
    }
  }

  /** Every sorted event is a face of one of the boxes. */
  lemma SortedEventsFaces(nfps: seq<Box>, axis: int)
    ensures forall p :: 0 <= p < |SortedEvents(nfps, axis)| ==> FaceEvent(nfps, axis, SortedEvents(nfps, axis)[p])
  {
    SortedFaces(nfps, axis, TupleLe);
  }

  /** Both faces of every box are among the sorted events, so every rank lookup succeeds. */
  lemma SortedEventsRanked(nfps: seq<Box>, axis: int)
    ensures Ranked(SortedEvents(nfps, axis), |nfps|)
  {
    SortedFaces(nfps, axis, TupleLe);
  }

  /** `np.roll(..., shift=1)` along an axis of length s reads the previous index, wrapping 0 to s - 1. */
  function Prev(i: int, s: int): int {
    if i == 0 then s - 1 else i - 1
  }

  /** The prefix-summed overlap grid and unstackable grid, as functions of the ranks. */
  function Overlap(rs: seq<RankBox>, i: int, j: int, k: int): int {
    Field(rs, Prefix, Prefix, Prefix, i, j, k)
  }

  function Unstack(rs: seq<RankBox>, stackable: seq<bool>, i: int, j: int, k: int): int
    requires |stackable| == |rs|
  {
    Field(Unstackables(rs, stackable), Prefix, Prefix, AtTop, i, j, k)
  }

  predicate Stable(rs: seq<RankBox>, s: int, i: int, j: int, k: int) {
    && Overlap(rs, i, j, k) == 0
    && Overlap(rs, Prev(i, s), j, k) > 0
    && Overlap(rs, i, Prev(j, s), k) > 0
    && Overlap(rs, i, j, Prev(k, s)) > 0
  }

  predicate Settleable(rs: seq<RankBox>, stackable: seq<bool>, s: int, i: int, j: int, k: int)
    requires |stackable| == |rs|
  {
    Stable(rs, s, i, j, k) && Unstack(rs, stackable, i, j, k) == 0
  }

  /** The scan predicates take their cell as (z, y, x), the order of the tie-break. */
  function StableAt(rs: seq<RankBox>, s: int): (int, int, int) -> bool {
    (k, j, i) => Stable(rs, s, i, j, k)
  }

  function SettleableAt(rs: seq<RankBox>, stackable: seq<bool>, s: int): (int, int, int) -> bool
    requires |stackable| == |rs|
  {
    (k, j, i) => Settleable(rs, stackable, s, i, j, k)
  }

  /** `calc_stable_index` as a function of the ranks: the (x, y, z) index of the
      settleable cell least in (z, y, x) order, or the error it raises. */
  function StableIndex(rs: seq<RankBox>, stackable: seq<bool>, s: int): (r: Result<Cell>)
    requires |stackable| == |rs|
    ensures r.Ok? ==>
      && InCube((r.value.2, r.value.1, r.value.0), 0, s) && Settleable(rs, stackable, s, r.value.0, r.value.1, r.value.2)
      && forall i, j, k :: InCube((k, j, i), 0, s) && LexLess((k, j, i), (r.value.2, r.value.1, r.value.0)) ==> !Settleable(rs, stackable, s, i, j, k)
    ensures r == Err(NoStackablePointFound) <==>
      && (forall i, j, k :: InCube((k, j, i), 0, s) ==> !Settleable(rs, stackable, s, i, j, k))
      && (exists i, j, k :: InCube((k, j, i), 0, s) && Stable(rs, s, i, j, k))
    ensures r == Err(NoStablePointFound) <==> forall i, j, k :: InCube((k, j, i), 0, s) ==> !Stable(rs, s, i, j, k)
    ensures r.Ok? || r == Err(NoStackablePointFound) || r == Err(NoStablePointFound)
  {
    FirstCellIsLeast(SettleableAt(rs, stackable, s), 0, s);
    FirstCellIsLeast(StableAt(rs, s), 0, s);
    match FirstCell(SettleableAt(rs, stackable, s), 0, s, 0, 0, 0)
    case Some(c) => Ok((c.2, c.1, c.0))
    case None =>
      if FirstCell(StableAt(rs, s), 0, s, 0, 0, 0).Some? then Err(NoStackablePointFound) else Err(NoStablePointFound)
  }

  // ---- What the grids mean ----

  /** With proper boxes a cell is stable iff no box covers it and some box covers
      each of its three cyclic predecessors. */
  lemma StableMeaning(rs: seq<RankBox>, s: int, i: int, j: int, k: int)
    requires forall o :: 0 <= o < |rs| ==> Proper(rs[o])
    ensures Stable(rs, s, i, j, k) <==>
      && (forall o :: 0 <= o < |rs| ==> !Covers(rs[o], i, j, k))
      && (exists o :: 0 <= o < |rs| && Covers(rs[o], Prev(i, s), j, k))
      && (exists o :: 0 <= o < |rs| && Covers(rs[o], i, Prev(j, s), k))
      && (exists o :: 0 <= o < |rs| && Covers(rs[o], i, j, Prev(k, s)))
  {
    FieldCountsCovers(rs, i, j, k);
    FieldCountsCovers(rs, Prev(i, s), j, k);
    FieldCountsCovers(rs, i, Prev(j, s), k);
    FieldCountsCovers(rs, i, j, Prev(k, s));
  }

  lemma {:induction false} UnstackablesTops(rs: seq<RankBox>, stackable: seq<bool>, i: int, j: int, k: int)
    requires |stackable| == |rs|
    ensures TopCount(Unstackables(rs, stackable), i, j, k) == 0 <==>
      forall o :: 0 <= o < |rs| && !stackable[o] ==> !RestsOn(rs[o], i, j, k)
  {
    if rs != [] {
      var n := |rs| - 1;
      UnstackablesTops(rs[..n], stackable[..n], i, j, k);
      var u := Unstackables(rs[..n], stackable[..n]);
      if !stackable[n] {
        assert (u + [rs[n]])[..|u|] == u;
      }
    }
  }

  /** With proper boxes the unstackable grid is zero at a cell iff no unstackable
      box has its upper z-face at the cell's z-index over a column holding the cell. */
  lemma UnstackMeaning(rs: seq<RankBox>, stackable: seq<bool>, i: int, j: int, k: int)
    requires |stackable| == |rs| && forall o :: 0 <= o < |rs| ==> Proper(rs[o])
    ensures Unstack(rs, stackable, i, j, k) == 0 <==> forall o :: 0 <= o < |rs| && !stackable[o] ==> !RestsOn(rs[o], i, j, k)
  {
    var u := Unstackables(rs, stackable);
    forall o | 0 <= o < |u| ensures Proper(u[o]) {
      assert u[o] in rs;
    }
    FieldCountsTops(u, i, j, k);
    UnstackablesTops(rs, stackable, i, j, k);
  }

  // ---- calc_stable_index, imperatively ----

  predicate Cube(a: array3<int>, s: int) {
    a.Length0 == s && a.Length1 == s && a.Length2 == s
  }

  /** The four stamps of an obstacle's footprint in plane k0, each scaled by sign. */
  method StampPlane(a: array3<int>, r: RankBox, k0: int, sign: int)
    requires InRange(r, a.Length0) && Cube(a, a.Length0) && 0 <= k0 < a.Length0
    modifies a
    ensures forall i, j, k :: InGrid(a, i, j, k) ==>
              a[i, j, k] == old(a[i, j, k]) + Indicator(k == k0) * sign * Factor(Delta, r.back, r.front, i) * Factor(Delta, r.left, r.right, j)
  {
    a[r.back, r.left, k0] := a[r.back, r.left, k0] + sign;
    a[r.back, r.right, k0] := a[r.back, r.right, k0] - sign;
    a[r.front, r.left, k0] := a[r.front, r.left, k0] - sign;
    a[r.front, r.right, k0] := a[r.front, r.right, k0] + sign;
  }

  /** The eight inclusion-exclusion stamps of one obstacle: +1 at its bottom plane, -1 at its top plane. */
  method StampBox(a: array3<int>, r: RankBox)
    requires InRange(r, a.Length0) && Cube(a, a.Length0)
    modifies a
    ensures forall i, j, k :: InGrid(a, i, j, k) ==> a[i, j, k] == old(a[i, j, k]) + Term(r, Delta, Delta, Delta, i, j, k)
  {
    StampPlane(a, r, r.bottom, 1);
    StampPlane(a, r, r.top, -1);
    forall i, j, k | InGrid(a, i, j, k)
      ensures a[i, j, k] == old(a[i, j, k]) + Term(r, Delta, Delta, Delta, i, j, k)
    {
      var f := Factor(Delta, r.back, r.front, i) * Factor(Delta, r.left, r.right, j);
      calc {
        Term(r, Delta, Delta, Delta, i, j, k);
        f * (Indicator(k == r.bottom) - Indicator(k == r.top));
        { MulSub(f, Indicator(k == r.bottom), Indicator(k == r.top)); }
        Indicator(k == r.bottom) * 1 * f - Indicator(k == r.top) * f;
      }
    }
  }

  lemma MulSub(f: int, p: int, q: int)
    ensures f * (p - q) == p * 1 * f - q * f
  {
  }

  /** The four stamps of a non-stackable obstacle, all in its top plane. */
  method StampTop(a: array3<int>, r: RankBox)
    requires InRange(r, a.Length0) && Cube(a, a.Length0)
    modifies a
    ensures forall i, j, k :: InGrid(a, i, j, k) ==> a[i, j, k] == old(a[i, j, k]) + Term(r, Delta, Delta, AtTop, i, j, k)
  {
    StampPlane(a, r, r.top, 1);
  }

  /** The first marked cell in (z, y, x) order, as `np.where` followed by the sort on `(t[2], t[1], t[0])` finds it. */
  method FirstMarked(m: array3<bool>, ghost p: (int, int, int) -> bool) returns (r: Option<Cell>)
    requires m.Length1 == m.Length0 && m.Length2 == m.Length0
    requires forall i, j, k :: 0 <= i < m.Length0 && 0 <= j < m.Length0 && 0 <= k < m.Length0 ==> m[i, j, k] == p(k, j, i)
    ensures r == FirstCell(p, 0, m.Length0, 0, 0, 0)
  {
    var s := m.Length0;
    var k, j, i := 0, 0, 0;
    while k < s
      invariant 0 <= k <= s && 0 <= j <= s && 0 <= i <= s
      invariant FirstCell(p, 0, s, k, j, i) == FirstCell(p, 0, s, 0, 0, 0)
      decreases s - k, s - j, s - i
    {
      if j >= s {
        k, j, i := k + 1, 0, 0;
      } else if i >= s {
        j, i := j + 1, 0;
      } else if m[i, j, k] {
        return Some((k, j, i));
      } else {
        i := i + 1;
      }
    }
    r := None;
  }

  lemma UnstackablesNonNegative(rs: seq<RankBox>, stackable: seq<bool>)
    requires |stackable| == |rs| && NonNegative(rs)
    ensures NonNegative(Unstackables(rs, stackable))
  {
    var u := Unstackables(rs, stackable);
    forall o | 0 <= o < |u| ensures NonNegativeBox(u[o]) {
      assert u[o] in rs;
    }
  }

  /** One iteration of the stamping loop: obstacle idx, with ranks `box`, is added to both grids. */
  method StampObstacle(overlaps: array3<int>, unstackable: array3<int>, ghost rs: seq<RankBox>, ghost st: seq<bool>,
                       idx: nat, box: RankBox, stackable: bool)
    requires overlaps != unstackable && Cube(overlaps, overlaps.Length0) && Cube(unstackable, overlaps.Length0)
    requires idx < |rs| == |st| && box == rs[idx] && stackable == st[idx] && InRange(box, overlaps.Length0)
    requires Holds(overlaps, FieldFn(rs[..idx], Delta, Delta, Delta))
    requires Holds(unstackable, FieldFn(Unstackables(rs[..idx], st[..idx]), Delta, Delta, AtTop))
    modifies overlaps, unstackable
    ensures Holds(overlaps, FieldFn(rs[..idx + 1], Delta, Delta, Delta))
    ensures Holds(unstackable, FieldFn(Unstackables(rs[..idx + 1], st[..idx + 1]), Delta, Delta, AtTop))
  {
    assert rs[..idx + 1][..idx] == rs[..idx] && st[..idx + 1][..idx] == st[..idx];
    assert rs[..idx + 1][idx] == box && st[..idx + 1][idx] == stackable;
    StampBox(overlaps, box);
    if !stackable {
      StampTop(unstackable, box);
    }
  }

  /** The ranks of obstacle idx's six faces, looked up in the three rank maps. */
  method ObstacleRanks(n: nat, xs: seq<Event>, ys: seq<Event>, zs: seq<Event>,
                       xOrder: map<(int, int), int>, yOrder: map<(int, int), int>, zOrder: map<(int, int), int>, idx: nat)
    returns (box: RankBox)
    requires Ranked(xs, n) && Ranked(ys, n) && Ranked(zs, n) && idx < n
    requires xOrder == RankMap(xs) && yOrder == RankMap(ys) && zOrder == RankMap(zs)
    ensures box == RanksOf(n, xs, ys, zs)[idx] && InRange(box, 2 * n)
  {
    assert HasKey(xs, idx, 1) && HasKey(xs, idx, -1) && HasKey(ys, idx, 1) && HasKey(ys, idx, -1);
    assert HasKey(zs, idx, 1) && HasKey(zs, idx, -1);
    box := RankBox(xOrder[(idx, 1)], xOrder[(idx, -1)], yOrder[(idx, 1)], yOrder[(idx, -1)], zOrder[(idx, 1)], zOrder[(idx, -1)]);
    assert Faces(xs, box.back, box.front, idx) && Faces(ys, box.left, box.right, idx) && Faces(zs, box.bottom, box.top, idx);
  }

  /** A zero grid: the field of no boxes. */
  method Zeros(size: nat, ghost rs: seq<RankBox>, ghost mz: Mode) returns (a: array3<int>)
    ensures fresh(a) && Cube(a, size)
    ensures Holds(a, FieldFn(rs[..0], Delta, Delta, mz))
  {
    a := new int[size, size, size]((i, j, k) => 0);
    assert rs[..0] == [];
  }

  /** The grids of `calc_stable_index`: zero-initialised, then stamped obstacle by obstacle. */
  method StampAll(n: nat, xs: seq<Event>, ys: seq<Event>, zs: seq<Event>, stackable: seq<bool>)
    returns (overlaps: array3<int>, unstackable: array3<int>)
    requires Ranked(xs, n) && Ranked(ys, n) && Ranked(zs, n) && |stackable| >= n
    ensures fresh(overlaps) && fresh(unstackable) && overlaps != unstackable
    ensures Cube(overlaps, 2 * n) && Cube(unstackable, 2 * n)
    ensures Holds(overlaps, FieldFn(RanksOf(n, xs, ys, zs), Delta, Delta, Delta))
    ensures Holds(unstackable, FieldFn(Unstackables(RanksOf(n, xs, ys, zs), stackable[..n]), Delta, Delta, AtTop))
  {
    ghost var rs := RanksOf(n, xs, ys, zs);
    ghost var st := stackable[..n];
    overlaps := Zeros(2 * n, rs, Delta);
    unstackable := Zeros(2 * n, Unstackables(rs[..0], st[..0]), AtTop);
    StampEach(overlaps, unstackable, n, xs, ys, zs, stackable, rs, st);
  }

  /** The per-obstacle stamping loop. */
  method StampEach(overlaps: array3<int>, unstackable: array3<int>, n: nat, xs: seq<Event>, ys: seq<Event>,
                   zs: seq<Event>, stackable: seq<bool>, ghost rs: seq<RankBox>, ghost st: seq<bool>)
    requires Ranked(xs, n) && Ranked(ys, n) && Ranked(zs, n) && |stackable| >= n
    requires rs == RanksOf(n, xs, ys, zs) && st == stackable[..n]
    requires overlaps != unstackable && Cube(overlaps, 2 * n) && Cube(unstackable, 2 * n)
    requires Holds(overlaps, FieldFn(rs[..0], Delta, Delta, Delta))
    requires Holds(unstackable, FieldFn(Unstackables(rs[..0], st[..0]), Delta, Delta, AtTop))
    modifies overlaps, unstackable
    ensures Holds(overlaps, FieldFn(rs, Delta, Delta, Delta))
    ensures Holds(unstackable, FieldFn(Unstackables(rs, st), Delta, Delta, AtTop))
  {
    var xOrder, yOrder, zOrder := RankMap(xs), RankMap(ys), RankMap(zs);
    var idx := 0;
    while idx < n
      invariant 0 <= idx <= n
      invariant Holds(overlaps, FieldFn(rs[..idx], Delta, Delta, Delta))
      invariant Holds(unstackable, FieldFn(Unstackables(rs[..idx], st[..idx]), Delta, Delta, AtTop))
    {
      var box := ObstacleRanks(n, xs, ys, zs, xOrder, yOrder, zOrder, idx);
      StampObstacle(overlaps, unstackable, rs, st, idx, box, stackable[idx]);
      idx := idx + 1;
    }
    assert rs[..n] == rs && st[..n] == st;
  }

  /** The cells with zero overlap whose three rolled neighbours have positive overlap. */
  method MarkStable(overlaps: array3<int>, ghost rs: seq<RankBox>) returns (stable: array3<bool>)
    requires Cube(overlaps, overlaps.Length0) && Holds(overlaps, FieldFn(rs, Prefix, Prefix, Prefix))
    ensures stable.Length0 == overlaps.Length0 && stable.Length1 == overlaps.Length0 && stable.Length2 == overlaps.Length0
    ensures forall i, j, k :: 0 <= i < stable.Length0 && 0 <= j < stable.Length0 && 0 <= k < stable.Length0 ==>
      stable[i, j, k] == StableAt(rs, overlaps.Length0)(k, j, i)
  {
    var size := overlaps.Length0;
    var shiftedBack := new int[size, size, size]((i, j, k) reads overlaps requires 0 <= i < size && 0 <= j < size && 0 <= k < size =>
      overlaps[Prev(i, size), j, k]);
    var shiftedLeft := new int[size, size, size]((i, j, k) reads overlaps requires 0 <= i < size && 0 <= j < size && 0 <= k < size =>
      overlaps[i, Prev(j, size), k]);
    var shiftedDown := new int[size, size, size]((i, j, k) reads overlaps requires 0 <= i < size && 0 <= j < size && 0 <= k < size =>
      overlaps[i, j, Prev(k, size)]);
    stable := new bool[size, size, size]((i, j, k) reads overlaps, shiftedBack, shiftedLeft, shiftedDown
      requires 0 <= i < size && 0 <= j < size && 0 <= k < size =>
      overlaps[i, j, k] == 0 && shiftedBack[i, j, k] > 0 && shiftedLeft[i, j, k] > 0 && shiftedDown[i, j, k] > 0);
  }

  /** `np.cumsum` of the overlap grid along z, y and x, and of the unstackable grid along y and x. */
  method PrefixSums(overlaps: array3<int>, unstackable: array3<int>, ghost rs: seq<RankBox>, ghost us: seq<RankBox>)
    requires overlaps != unstackable && NonNegative(rs) && NonNegative(us)
    requires Holds(overlaps, FieldFn(rs, Delta, Delta, Delta)) && Holds(unstackable, FieldFn(us, Delta, Delta, AtTop))
    modifies overlaps, unstackable
    ensures Holds(overlaps, FieldFn(rs, Prefix, Prefix, Prefix)) && Holds(unstackable, FieldFn(us, Prefix, Prefix, AtTop))
  {
    CumsumZ(overlaps, FieldFn(rs, Delta, Delta, Delta));
    HoldsPrefZ(overlaps, rs, Delta, Delta);
    CumsumY(overlaps, FieldFn(rs, Delta, Delta, Prefix));
    HoldsPrefY(overlaps, rs, Delta, Prefix);
    CumsumX(overlaps, FieldFn(rs, Delta, Prefix, Prefix));
    HoldsPrefX(overlaps, rs, Prefix, Prefix);

    CumsumY(unstackable, FieldFn(us, Delta, Delta, AtTop));
    HoldsPrefY(unstackable, us, Delta, AtTop);
    CumsumX(unstackable, FieldFn(us, Delta, Prefix, AtTop));
    HoldsPrefX(unstackable, us, Prefix, AtTop);
  }

  /** `calc_stable_index`: stamps every obstacle into the overlap grid (and
      every non-stackable one into the unstackable grid), prefix-sums them,
      marks the stable and settleable cells and returns the first settleable one. */
  method CalcStableIndex(n: nat, xs: seq<Event>, ys: seq<Event>, zs: seq<Event>, stackable: seq<bool>) returns (r: Result<Cell>)
    requires Ranked(xs, n) && Ranked(ys, n) && Ranked(zs, n) && |stackable| >= n
    ensures r == StableIndex(RanksOf(n, xs, ys, zs), stackable[..n], 2 * n)
  {
    var size := 2 * n;
    ghost var rs := RanksOf(n, xs, ys, zs);
    ghost var st := stackable[..n];
    ghost var us := Unstackables(rs, st);
    var overlaps, unstackable := StampAll(n, xs, ys, zs, stackable);
    UnstackablesNonNegative(rs, st);
    PrefixSums(overlaps, unstackable, rs, us);

    var stable := MarkStable(overlaps, rs);
    var settlable := new bool[size, size, size]((i, j, k) reads stable, unstackable
      requires 0 <= i < size && 0 <= j < size && 0 <= k < size =>
      stable[i, j, k] && unstackable[i, j, k] == 0);
    forall i, j, k | 0 <= i < size && 0 <= j < size && 0 <= k < size
      ensures settlable[i, j, k] == SettleableAt(rs, st, size)(k, j, i)
    {
      assert InGrid(unstackable, i, j, k);
      assert unstackable[i, j, k] == Unstack(rs, st, i, j, k);
    }

    var first := FirstMarked(settlable, SettleableAt(rs, st, size));
    if first.Some? {
      r := Ok((first.value.2, first.value.1, first.value.0));
    } else {
      var anyStable := FirstMarked(stable, StableAt(rs, size));
      if anyStable.Some? {
        r := Err(NoStackablePointFound);
      } else {
        r := Err(NoStablePointFound);
      }
    }
  }

  // ---- calc_score_and_corner ----

  function ShapesOf(obstacles: seq<Solid>): (r: seq<Shape>)
    ensures |r| == |obstacles| && forall o :: 0 <= o < |r| ==> r[o] == obstacles[o].shape
  {
    seq(|obstacles|, o requires 0 <= o < |obstacles| => obstacles[o].shape)
  }

  function StackablesOf(obstacles: seq<Solid>): (r: seq<bool>)
    ensures |r| == |obstacles| && forall o :: 0 <= o < |r| ==> r[o] == obstacles[o].stackable
  {
    seq(|obstacles|, o requires 0 <= o < |obstacles| => obstacles[o].stackable)
  }

  /** The sorted events of the no-fit boxes, their ranks, and the chosen cell turned back into a score and a corner. */
  function Placed(nfps: seq<Box>, stackable: seq<bool>, height: int): (r: Result<(int, Corner)>)
    requires |stackable| >= |nfps|
    ensures r.Err? ==> r.error == NoStablePointFound
    ensures r.Ok? ==> r.value == (INF, Corner(INF, INF, INF)) || r.value.0 == r.value.1.z + height
  {
    var n := |nfps|;
    var xs := SortedEvents(nfps, 0);
    var ys := SortedEvents(nfps, 1);
    var zs := SortedEvents(nfps, 2);
    SortedEventsRanked(nfps, 0);
    SortedEventsRanked(nfps, 1);
    SortedEventsRanked(nfps, 2);
    FromIndex(xs, ys, zs, StableIndex(RanksOf(n, xs, ys, zs), stackable[..n], 2 * n), height)
  }

  /** The chosen cell read back as a score and a corner; when no cell is settleable
      the placement is reported at INF, and a missing stable cell stays an error. */
  function FromIndex(xs: seq<Event>, ys: seq<Event>, zs: seq<Event>, index: Result<Cell>, height: int): (r: Result<(int, Corner)>)
    requires index.Ok? ==> 0 <= index.value.0 < |xs| && 0 <= index.value.1 < |ys| && 0 <= index.value.2 < |zs|
    ensures index.Err? && index.error != NoStackablePointFound ==> r == Err(index.error)
    ensures index == Err(NoStackablePointFound) ==> r == Ok((INF, Corner(INF, INF, INF)))
    ensures index.Ok? ==> r.Ok? && r.value.0 == r.value.1.z + height
  {
    match index
    case Ok(c) => Ok((zs[c.2].coord + height, Corner(xs[c.0].coord, ys[c.1].coord, zs[c.2].coord)))
    case Err(e) => if e == NoStackablePointFound then Ok((INF, Corner(INF, INF, INF))) else Err(e)
  }

  /** `calc_score_and_corner`: the corner read off the events at the chosen cell
      and the height of the new block's top there; when stable cells exist but
      none is settleable the placement is reported at INF; when no stable cell
      exists the error propagates. */
  function ScoreAndCorner(newShape: Shape, obstacles: seq<Solid>, corners: seq<Corner>): Result<(int, Corner)> {
    Placed(NoFitPolys(newShape, ShapesOf(obstacles), corners), StackablesOf(obstacles), newShape.height)
  }

  /** A placement function: the new block's shape, the obstacles and their corners
      to a score and the new block's corner. */
  type Placer = (Shape, seq<Solid>, seq<Corner>) -> Result<(int, Corner)>

  /** `calc_score_and_corner` as a value: the placer every solver calls. */
  const Engine: Placer := (s: Shape, o: seq<Solid>, c: seq<Corner>) => ScoreAndCorner(s, o, c)

  /** The orchestration of `calc_score_and_corner` after the events: runs the imperative `calc_stable_index`. */
  method PlaceByGrid(nfps: seq<Box>, stackable: seq<bool>, height: int) returns (r: Result<(int, Corner)>)
    requires |stackable| >= |nfps|
    ensures r == Placed(nfps, stackable, height)
  {
    var n := |nfps|;
    var xs, ys, zs := SortedEvents(nfps, 0), SortedEvents(nfps, 1), SortedEvents(nfps, 2);
    SortedEventsRanked(nfps, 0);
    SortedEventsRanked(nfps, 1);
    SortedEventsRanked(nfps, 2);
    var index := CalcStableIndex(n, xs, ys, zs, stackable);
    r := FromIndex(xs, ys, zs, index, height);
  }

  /** `calc_score_and_corner` for a new block and the obstacles already placed,
      each given by its shape and stackability. */
  method CalcScoreAndCorner(block: Solid, blocks: seq<Solid>, corners: seq<Corner>) returns (r: Result<(int, Corner)>)
    ensures r == ScoreAndCorner(block.shape, blocks, corners)
  {
    var nfps := NoFitPolys(block.shape, ShapesOf(blocks), corners);
    r := PlaceByGrid(nfps, StackablesOf(blocks), block.shape.height);
  }

  /** Where a box's two faces sit among sorted events relative to another event t. */
  lemma RankBetween(evs: seq<Event>, nfps: seq<Box>, axis: int, o: int, lo: int, hi: int, t: int)
    requires CoordSorted(evs) && (forall p :: 0 <= p < |evs| ==> FaceEvent(nfps, axis, evs[p]))
    requires 0 <= o < |nfps| && Faces(evs, lo, hi, o) && 0 <= t < |evs|
    ensures Lower(nfps[o], axis) < evs[t].coord ==> lo < t
    ensures evs[t].coord < Upper(nfps[o], axis) ==> t < hi
    ensures Lower(nfps[o], axis) < Upper(nfps[o], axis) ==> lo < hi
  {
    assert FaceEvent(nfps, axis, evs[lo]) && FaceEvent(nfps, axis, evs[hi]);
  }

  /** xs, ys and zs are sweeps of the boxes: ordered by coordinate, made of the
      boxes' faces, with both faces of every box present. */
  ghost predicate EventsOf(nfps: seq<Box>, xs: seq<Event>, ys: seq<Event>, zs: seq<Event>) {
    && Ranked(xs, |nfps|) && Ranked(ys, |nfps|) && Ranked(zs, |nfps|)
    && CoordSorted(xs) && CoordSorted(ys) && CoordSorted(zs)
    && (forall p :: 0 <= p < |xs| ==> FaceEvent(nfps, 0, xs[p]))
    && (forall p :: 0 <= p < |ys| ==> FaceEvent(nfps, 1, ys[p]))
    && (forall p :: 0 <= p < |zs| ==> FaceEvent(nfps, 2, zs[p]))
  }

  lemma EventsOfSorted(nfps: seq<Box>)
    ensures EventsOf(nfps, SortedEvents(nfps, 0), SortedEvents(nfps, 1), SortedEvents(nfps, 2))
  {
    SortedEventsRanked(nfps, 0);
    SortedEventsRanked(nfps, 1);
    SortedEventsRanked(nfps, 2);
    SortedEventsPermutation(nfps, 0);
    SortedEventsPermutation(nfps, 1);
    SortedEventsPermutation(nfps, 2);
    SortedEventsFaces(nfps, 0);
    SortedEventsFaces(nfps, 1);
    SortedEventsFaces(nfps, 2);
  }

  /** Boxes of positive extent keep their lower face ranked before their upper face. */
  lemma RanksProper(nfps: seq<Box>, xs: seq<Event>, ys: seq<Event>, zs: seq<Event>)
    requires EventsOf(nfps, xs, ys, zs) && forall o :: 0 <= o < |nfps| ==> ProperBox(nfps[o])
    ensures forall o :: 0 <= o < |nfps| ==> Proper(RanksOf(|nfps|, xs, ys, zs)[o])
  {
    var rs := RanksOf(|nfps|, xs, ys, zs);
    forall o | 0 <= o < |nfps| ensures Proper(rs[o]) {
      assert ProperBox(nfps[o]);
      RankBetween(xs, nfps, 0, o, rs[o].back, rs[o].front, 0);
      RankBetween(ys, nfps, 1, o, rs[o].left, rs[o].right, 0);
      RankBetween(zs, nfps, 2, o, rs[o].bottom, rs[o].top, 0);
    }
  }

  /** A cell no rank box covers gives a corner strictly inside no no-fit box. */
  lemma UncoveredCellIsOutside(nfps: seq<Box>, xs: seq<Event>, ys: seq<Event>, zs: seq<Event>, i: int, j: int, k: int)
    requires EventsOf(nfps, xs, ys, zs) && 0 <= i < |xs| && 0 <= j < |ys| && 0 <= k < |zs|
    requires forall o :: 0 <= o < |nfps| ==> !Covers(RanksOf(|nfps|, xs, ys, zs)[o], i, j, k)
    ensures forall o :: 0 <= o < |nfps| ==> !StrictlyInside(Corner(xs[i].coord, ys[j].coord, zs[k].coord), nfps[o])
  {
    var rs := RanksOf(|nfps|, xs, ys, zs);
    forall o | 0 <= o < |nfps| ensures !StrictlyInside(Corner(xs[i].coord, ys[j].coord, zs[k].coord), nfps[o]) {
      RankBetween(xs, nfps, 0, o, rs[o].back, rs[o].front, i);
      RankBetween(ys, nfps, 1, o, rs[o].left, rs[o].right, j);
      RankBetween(zs, nfps, 2, o, rs[o].bottom, rs[o].top, k);
      assert !Covers(rs[o], i, j, k);
    }
  }

  /** The chosen cell, being settleable, gives a corner strictly inside no proper no-fit box. */
  lemma ChosenCellIsOutside(nfps: seq<Box>, xs: seq<Event>, ys: seq<Event>, zs: seq<Event>, st: seq<bool>, i: int, j: int, k: int)
    requires EventsOf(nfps, xs, ys, zs) && forall o :: 0 <= o < |nfps| ==> ProperBox(nfps[o])
    requires |st| == |nfps| && 0 <= i < |xs| && 0 <= j < |ys| && 0 <= k < |zs|
    requires Settleable(RanksOf(|nfps|, xs, ys, zs), st, 2 * |nfps|, i, j, k)
    ensures forall o :: 0 <= o < |nfps| ==> !StrictlyInside(Corner(xs[i].coord, ys[j].coord, zs[k].coord), nfps[o])
  {
    var rs := RanksOf(|nfps|, xs, ys, zs);
    assert Overlap(rs, i, j, k) == 0;
    RanksProper(nfps, xs, ys, zs);
    FieldCountsCovers(rs, i, j, k);
    assert Count(rs, i, j, k) == 0;
    UncoveredCellIsOutside(nfps, xs, ys, zs, i, j, k);
  }

  /** On proper no-fit boxes the placed corner, unless reported at INF, is strictly inside none of them. */
  lemma PlacedIsOutside(nfps: seq<Box>, stackable: seq<bool>, height: int)
    requires |stackable| >= |nfps| && forall o :: 0 <= o < |nfps| ==> ProperBox(nfps[o])
    ensures Placed(nfps, stackable, height).Ok? ==>
      var (score, c) := Placed(nfps, stackable, height).value;
      || (score, c) == (INF, Corner(INF, INF, INF))
      || forall o :: 0 <= o < |nfps| ==> !StrictlyInside(c, nfps[o])
  {
    var n := |nfps|;
    var xs, ys, zs := SortedEvents(nfps, 0), SortedEvents(nfps, 1), SortedEvents(nfps, 2);
    EventsOfSorted(nfps);
    var st := stackable[..n];
    var si := StableIndex(RanksOf(n, xs, ys, zs), st, 2 * n);
    if si.Ok? {
      ChosenCellIsOutside(nfps, xs, ys, zs, st, si.value.0, si.value.1, si.value.2);
    }
  }

  /** The placement never makes the new block overlap an obstacle: either it is
      reported at INF, or the new block at the chosen corner shares no interior
      point with any obstacle. */
  lemma PlacementAvoidsObstacles(newShape: Shape, obstacles: seq<Solid>, corners: seq<Corner>)
    requires newShape.Positive() && forall o :: 0 <= o < |obstacles| ==> obstacles[o].shape.Positive()
    ensures ScoreAndCorner(newShape, obstacles, corners).Ok? ==>
      var (score, c) := ScoreAndCorner(newShape, obstacles, corners).value;
      || (score, c) == (INF, Corner(INF, INF, INF))
      || forall o :: 0 <= o < Min(|obstacles|, |corners|) ==> !Intersects(c, newShape, corners[o], obstacles[o].shape)
  {
    var shapes := ShapesOf(obstacles);
    NoFitPolysProper(newShape, shapes, corners);
    PlacedIsOutside(NoFitPolys(newShape, shapes, corners), StackablesOf(obstacles), newShape.height);
  }
}
