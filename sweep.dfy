/** Sweep events along one axis, the rank of each face among them, and the
    stamp-and-prefix-sum algebra that turns eight corner stamps per box into
    the number of boxes covering a cell of the rank grid. */
module Sweep {
  import opened Grid
  import opened Sorting

  /** A face met by a sweep along one axis: its coordinate, +1 for the lower
      face of box `idx` and -1 for its upper face. */
  datatype Event = Event(coord: int, sign: int, idx: int)

  /** Python's order on `(coord, sign, idx)` tuples. */
  predicate TupleLe(e: Event, f: Event) {
    e.coord < f.coord || (e.coord == f.coord && (e.sign < f.sign || (e.sign == f.sign && e.idx <= f.idx)))
  }

  lemma TupleLeIsTotalPreorder()
    ensures TotalPreorder(TupleLe)
  {
  }

  /** Events sorted by any order that compares coordinates first have nondecreasing coordinates. */
  ghost predicate CoordSorted(evs: seq<Event>) {
    forall p, q :: 0 <= p < q < |evs| ==> evs[p].coord <= evs[q].coord
  }

  lemma TupleSortedIsCoordSorted(evs: seq<Event>)
    requires Sorted(evs, TupleLe)
    ensures CoordSorted(evs)
  {
    forall p, q | 0 <= p < q < |evs| ensures evs[p].coord <= evs[q].coord {
      assert TupleLe(evs[p], evs[q]);
    }
  }

  /** The dictionary key `(idx, flag)` of an event. */
  function Key(e: Event): (int, int) {
    (e.idx, e.sign)
  }

  /** `{(idx, flag): order for order, (_, flag, idx) in enumerate(evs)}`:
      a later event with the same key overwrites an earlier one. */
  function RankMap(evs: seq<Event>): (m: map<(int, int), int>)
    ensures forall key :: key in m ==> 0 <= m[key] < |evs| && Key(evs[m[key]]) == key
    ensures forall p :: 0 <= p < |evs| ==> Key(evs[p]) in m
  {
    if evs == [] then map[]
    else
      var m := RankMap(evs[..|evs| - 1]);
      m[Key(evs[|evs| - 1]) := |evs| - 1]
  }

  predicate HasKey(evs: seq<Event>, o: int, sign: int) {
    (o, sign) in RankMap(evs)
  }

  /** The event lists of `n` boxes: 2n events, holding the lower and the upper face of each box. */
  predicate Ranked(evs: seq<Event>, n: nat) {
    |evs| == 2 * n && forall o :: 0 <= o < n ==> HasKey(evs, o, 1) && HasKey(evs, o, -1)
  }

  function Rank(evs: seq<Event>, o: int, sign: int): (p: nat)
    requires HasKey(evs, o, sign)
    ensures p < |evs| && evs[p].idx == o && evs[p].sign == sign
  {
    RankMap(evs)[(o, sign)]
  }

  /** A box given by the ranks of its six faces among the sweep events. */
  datatype RankBox = RankBox(back: int, front: int, left: int, right: int, bottom: int, top: int)

  function RanksOf(n: nat, xs: seq<Event>, ys: seq<Event>, zs: seq<Event>): (r: seq<RankBox>)
    requires Ranked(xs, n) && Ranked(ys, n) && Ranked(zs, n)
    ensures |r| == n && NonNegative(r)
    ensures forall o :: 0 <= o < n ==>
      && Faces(xs, r[o].back, r[o].front, o) && Faces(ys, r[o].left, r[o].right, o) && Faces(zs, r[o].bottom, r[o].top, o)
  {
    seq(n, o requires 0 <= o < n =>
      RankBox(Rank(xs, o, 1), Rank(xs, o, -1), Rank(ys, o, 1), Rank(ys, o, -1), Rank(zs, o, 1), Rank(zs, o, -1)))
  }

  /** Positions lo and hi of evs hold the lower and the upper face of box o. */
  predicate Faces(evs: seq<Event>, lo: int, hi: int, o: int) {
    && 0 <= lo < |evs| && evs[lo].idx == o && evs[lo].sign == 1
    && 0 <= hi < |evs| && evs[hi].idx == o && evs[hi].sign == -1
  }

  predicate InRange(r: RankBox, size: int) {
    && 0 <= r.back < size && 0 <= r.front < size && 0 <= r.left < size
    && 0 <= r.right < size && 0 <= r.bottom < size && 0 <= r.top < size
  }

  predicate NonNegativeBox(r: RankBox) {
    r.back >= 0 && r.front >= 0 && r.left >= 0 && r.right >= 0 && r.bottom >= 0 && r.top >= 0
  }

  predicate NonNegative(rs: seq<RankBox>) {
    forall o :: 0 <= o < |rs| ==> NonNegativeBox(rs[o])
  }

  /** Lower face strictly before the upper face on every axis. */
  predicate Proper(r: RankBox) {
    r.back < r.front && r.left < r.right && r.bottom < r.top
  }

  /** How one axis of a box contributes to a cell index t:
      Delta is the stamp (+1 at the lower face, -1 at the upper face),
      Prefix its running sum, AtTop the indicator of the upper face alone. */
  datatype Mode = Delta | Prefix | AtTop

  function Indicator(b: bool): int {
    if b then 1 else 0
  }

  function Factor(m: Mode, lo: int, hi: int, t: int): int {
    match m
    case Delta => Indicator(t == lo) - Indicator(t == hi)
    case Prefix => Indicator(lo <= t) - Indicator(hi <= t)
    case AtTop => Indicator(t == hi)
  }

  function Term(r: RankBox, mx: Mode, my: Mode, mz: Mode, i: int, j: int, k: int): int {
    Factor(mx, r.back, r.front, i) * Factor(my, r.left, r.right, j) * Factor(mz, r.bottom, r.top, k)
  }

  /** The sum of the terms of all boxes at cell (i, j, k). */
  function Field(rs: seq<RankBox>, mx: Mode, my: Mode, mz: Mode, i: int, j: int, k: int): int {
    if rs == [] then 0
    else Field(rs[..|rs| - 1], mx, my, mz, i, j, k) + Term(rs[|rs| - 1], mx, my, mz, i, j, k)
  }

  function FieldFn(rs: seq<RankBox>, mx: Mode, my: Mode, mz: Mode): (int, int, int) -> int {
    (i, j, k) => Field(rs, mx, my, mz, i, j, k)
  }

  /** The boxes whose block is not stackable, in order. */
  function Unstackables(rs: seq<RankBox>, stackable: seq<bool>): (u: seq<RankBox>)
    requires |stackable| == |rs|
    ensures |u| <= |rs| && forall r :: r in u ==> r in rs
  {
    if rs == [] then []
    else
      var u := Unstackables(rs[..|rs| - 1], stackable[..|rs| - 1]);
      if stackable[|rs| - 1] then u else u + [rs[|rs| - 1]]
  }

  predicate Covers(r: RankBox, i: int, j: int, k: int) {
    r.back <= i < r.front && r.left <= j < r.right && r.bottom <= k < r.top
  }

  /** The cell is in the column of r and its z-index is r's upper face. */
  predicate RestsOn(r: RankBox, i: int, j: int, k: int) {
    r.back <= i < r.front && r.left <= j < r.right && k == r.top
  }

  function Count(rs: seq<RankBox>, i: int, j: int, k: int): (c: nat)
    ensures c == 0 <==> forall o :: 0 <= o < |rs| ==> !Covers(rs[o], i, j, k)
  {
    if rs == [] then 0
    else Count(rs[..|rs| - 1], i, j, k) + Indicator(Covers(rs[|rs| - 1], i, j, k))
  }

  function TopCount(rs: seq<RankBox>, i: int, j: int, k: int): (c: nat)
    ensures c == 0 <==> forall o :: 0 <= o < |rs| ==> !RestsOn(rs[o], i, j, k)
  {
    if rs == [] then 0
    else TopCount(rs[..|rs| - 1], i, j, k) + Indicator(RestsOn(rs[|rs| - 1], i, j, k))
  }

  // ---- One prefix step turns a Delta axis into a Prefix axis ----

  lemma FactorStep(lo: int, hi: int, t: int)
    ensures t >= 1 ==> Factor(Prefix, lo, hi, t) == Factor(Prefix, lo, hi, t - 1) + Factor(Delta, lo, hi, t)
    ensures t == 0 && lo >= 0 && hi >= 0 ==> Factor(Prefix, lo, hi, t) == Factor(Delta, lo, hi, t)
  {
  }

  lemma DistributeX(p: int, d: int, b: int, c: int)
    ensures (p + d) * b * c == p * b * c + d * b * c
  {
  }

  lemma DistributeY(a: int, p: int, d: int, c: int)
    ensures a * (p + d) * c == a * p * c + a * d * c
  {
  }

  lemma DistributeZ(a: int, b: int, p: int, d: int)
    ensures a * b * (p + d) == a * b * p + a * b * d
  {
  }

  lemma TermStepZ(r: RankBox, mx: Mode, my: Mode, i: int, j: int, k: int)
    requires k >= 1
    ensures Term(r, mx, my, Prefix, i, j, k) == Term(r, mx, my, Prefix, i, j, k - 1) + Term(r, mx, my, Delta, i, j, k)
  {
    var a, b := Factor(mx, r.back, r.front, i), Factor(my, r.left, r.right, j);
    var p, d := Factor(Prefix, r.bottom, r.top, k - 1), Factor(Delta, r.bottom, r.top, k);
    FactorStep(r.bottom, r.top, k);
    calc {
      Term(r, mx, my, Prefix, i, j, k);
      a * b * (p + d);
      { DistributeZ(a, b, p, d); }
      a * b * p + a * b * d;
    }
  }

  lemma TermStepY(r: RankBox, mx: Mode, mz: Mode, i: int, j: int, k: int)
    requires j >= 1
    ensures Term(r, mx, Prefix, mz, i, j, k) == Term(r, mx, Prefix, mz, i, j - 1, k) + Term(r, mx, Delta, mz, i, j, k)
  {
    var a, c := Factor(mx, r.back, r.front, i), Factor(mz, r.bottom, r.top, k);
    var p, d := Factor(Prefix, r.left, r.right, j - 1), Factor(Delta, r.left, r.right, j);
    FactorStep(r.left, r.right, j);
    calc {
      Term(r, mx, Prefix, mz, i, j, k);
      a * (p + d) * c;
      { DistributeY(a, p, d, c); }
      a * p * c + a * d * c;
    }
  }

  lemma TermStepX(r: RankBox, my: Mode, mz: Mode, i: int, j: int, k: int)
    requires i >= 1
    ensures Term(r, Prefix, my, mz, i, j, k) == Term(r, Prefix, my, mz, i - 1, j, k) + Term(r, Delta, my, mz, i, j, k)
  {
    var b, c := Factor(my, r.left, r.right, j), Factor(mz, r.bottom, r.top, k);
    var p, d := Factor(Prefix, r.back, r.front, i - 1), Factor(Delta, r.back, r.front, i);
    FactorStep(r.back, r.front, i);
    calc {
      Term(r, Prefix, my, mz, i, j, k);
      (p + d) * b * c;
      { DistributeX(p, d, b, c); }
      p * b * c + d * b * c;
    }
  }

  lemma {:induction false} FieldStepZ(rs: seq<RankBox>, mx: Mode, my: Mode, i: int, j: int, k: int)
    requires k >= 1
    ensures Field(rs, mx, my, Prefix, i, j, k) == Field(rs, mx, my, Prefix, i, j, k - 1) + Field(rs, mx, my, Delta, i, j, k)
  {
    if rs != [] {
      FieldStepZ(rs[..|rs| - 1], mx, my, i, j, k);
      TermStepZ(rs[|rs| - 1], mx, my, i, j, k);
    }
  }

  lemma {:induction false} FieldStepY(rs: seq<RankBox>, mx: Mode, mz: Mode, i: int, j: int, k: int)
    requires j >= 1
    ensures Field(rs, mx, Prefix, mz, i, j, k) == Field(rs, mx, Prefix, mz, i, j - 1, k) + Field(rs, mx, Delta, mz, i, j, k)
  {
    if rs != [] {
      FieldStepY(rs[..|rs| - 1], mx, mz, i, j, k);
      TermStepY(rs[|rs| - 1], mx, mz, i, j, k);
    }
  }

  lemma {:induction false} FieldStepX(rs: seq<RankBox>, my: Mode, mz: Mode, i: int, j: int, k: int)
    requires i >= 1
    ensures Field(rs, Prefix, my, mz, i, j, k) == Field(rs, Prefix, my, mz, i - 1, j, k) + Field(rs, Delta, my, mz, i, j, k)
  {
    if rs != [] {
      FieldStepX(rs[..|rs| - 1], my, mz, i, j, k);
      TermStepX(rs[|rs| - 1], my, mz, i, j, k);
    }
  }

  /** At index 0 the Prefix and Delta factors agree, for non-negative ranks. */
  lemma {:induction false} FieldBase(rs: seq<RankBox>, mx: Mode, my: Mode, mz: Mode, i: int, j: int, k: int)
    requires NonNegative(rs)
    ensures k == 0 ==> Field(rs, mx, my, Prefix, i, j, k) == Field(rs, mx, my, Delta, i, j, k)
    ensures j == 0 ==> Field(rs, mx, Prefix, mz, i, j, k) == Field(rs, mx, Delta, mz, i, j, k)
    ensures i == 0 ==> Field(rs, Prefix, my, mz, i, j, k) == Field(rs, Delta, my, mz, i, j, k)
  {
    if rs != [] {
      var r := rs[|rs| - 1];
      assert NonNegativeBox(r);
      FieldBase(rs[..|rs| - 1], mx, my, mz, i, j, k);
      FactorStep(r.back, r.front, i);
      FactorStep(r.left, r.right, j);
      FactorStep(r.bottom, r.top, k);
    }
  }

  lemma {:induction false} PrefZField(rs: seq<RankBox>, mx: Mode, my: Mode, i: int, j: int, k: int)
    requires NonNegative(rs) && k >= 0
    decreases k
    ensures PrefZ(FieldFn(rs, mx, my, Delta), i, j, k) == Field(rs, mx, my, Prefix, i, j, k)
  {
    if k == 0 {
      FieldBase(rs, mx, my, Delta, i, j, k);
    } else {
      PrefZField(rs, mx, my, i, j, k - 1);
      FieldStepZ(rs, mx, my, i, j, k);
    }
  }

  lemma {:induction false} PrefYField(rs: seq<RankBox>, mx: Mode, mz: Mode, i: int, j: int, k: int)
    requires NonNegative(rs) && j >= 0
    decreases j
    ensures PrefY(FieldFn(rs, mx, Delta, mz), i, j, k) == Field(rs, mx, Prefix, mz, i, j, k)
  {
    if j == 0 {
      FieldBase(rs, mx, Delta, mz, i, j, k);
    } else {
      PrefYField(rs, mx, mz, i, j - 1, k);
      FieldStepY(rs, mx, mz, i, j, k);
    }
  }

  lemma {:induction false} PrefXField(rs: seq<RankBox>, my: Mode, mz: Mode, i: int, j: int, k: int)
    requires NonNegative(rs) && i >= 0
    decreases i
    ensures PrefX(FieldFn(rs, Delta, my, mz), i, j, k) == Field(rs, Prefix, my, mz, i, j, k)
  {
    if i == 0 {
      FieldBase(rs, Delta, my, mz, i, j, k);
    } else {
      PrefXField(rs, my, mz, i - 1, j, k);
      FieldStepX(rs, my, mz, i, j, k);
    }
  }

  /** A grid that holds the z-prefix sums of a Delta-z field holds the Prefix-z field. */
  lemma HoldsPrefZ(a: array3<int>, rs: seq<RankBox>, mx: Mode, my: Mode)
    requires NonNegative(rs) && Holds(a, (i, j, k) => PrefZ(FieldFn(rs, mx, my, Delta), i, j, k))
    ensures Holds(a, FieldFn(rs, mx, my, Prefix))
  {
    forall i, j, k | InGrid(a, i, j, k) ensures a[i, j, k] == Field(rs, mx, my, Prefix, i, j, k) {
      PrefZField(rs, mx, my, i, j, k);
    }
  }

  lemma HoldsPrefY(a: array3<int>, rs: seq<RankBox>, mx: Mode, mz: Mode)
    requires NonNegative(rs) && Holds(a, (i, j, k) => PrefY(FieldFn(rs, mx, Delta, mz), i, j, k))
    ensures Holds(a, FieldFn(rs, mx, Prefix, mz))
  {
    forall i, j, k | InGrid(a, i, j, k) ensures a[i, j, k] == Field(rs, mx, Prefix, mz, i, j, k) {
      PrefYField(rs, mx, mz, i, j, k);
    }
  }

  lemma HoldsPrefX(a: array3<int>, rs: seq<RankBox>, my: Mode, mz: Mode)
    requires NonNegative(rs) && Holds(a, (i, j, k) => PrefX(FieldFn(rs, Delta, my, mz), i, j, k))
    ensures Holds(a, FieldFn(rs, Prefix, my, mz))
  {
    forall i, j, k | InGrid(a, i, j, k) ensures a[i, j, k] == Field(rs, Prefix, my, mz, i, j, k) {
      PrefXField(rs, my, mz, i, j, k);
    }
  }

  // ---- What the prefix-summed grids count ----

  /** With proper boxes, the fully prefix-summed stamps count the boxes covering the cell. */
  lemma {:induction false} FieldCountsCovers(rs: seq<RankBox>, i: int, j: int, k: int)
    requires forall o :: 0 <= o < |rs| ==> Proper(rs[o])
    ensures Field(rs, Prefix, Prefix, Prefix, i, j, k) == Count(rs, i, j, k)
  {
    if rs != [] {
      var r := rs[|rs| - 1];
      assert Proper(r);
      FieldCountsCovers(rs[..|rs| - 1], i, j, k);
      assert Factor(Prefix, r.back, r.front, i) == Indicator(r.back <= i < r.front);
      assert Factor(Prefix, r.left, r.right, j) == Indicator(r.left <= j < r.right);
      assert Factor(Prefix, r.bottom, r.top, k) == Indicator(r.bottom <= k < r.top);
    }
  }

  /** With proper boxes, the x- and y-prefix-summed top stamps count the boxes whose top face holds the cell. */
  lemma {:induction false} FieldCountsTops(rs: seq<RankBox>, i: int, j: int, k: int)
    requires forall o :: 0 <= o < |rs| ==> Proper(rs[o])
    ensures Field(rs, Prefix, Prefix, AtTop, i, j, k) == TopCount(rs, i, j, k)
  {
    if rs != [] {
      var r := rs[|rs| - 1];
      assert Proper(r);
      FieldCountsTops(rs[..|rs| - 1], i, j, k);
      assert Factor(Prefix, r.back, r.front, i) == Indicator(r.back <= i < r.front);
      assert Factor(Prefix, r.left, r.right, j) == Indicator(r.left <= j < r.right);
    }
  }
}
