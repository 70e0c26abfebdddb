/** The multi-container annealer of `src/binpacking_solver.py`: every container
    holds a list of block indices, each list is evaluated on its own (six walls,
    the ceiling included), and swap, rotate and shift moves are tried, accepted
    by the Metropolis test or rolled back. The initial assignment, which the
    source obtains from a MILP solver, is an input. */
module MultiContainer {
  import opened Failures
  import opened Geometry
  import opened Placement
  import opened Sorting
  import opened Evaluators
  import opened Annealing

  const ContainerUsedPenalty: real := 100000.0
  const BlockUnstackedPenalty: real := 10000000000.0
  const NWalls: nat := 6

  /** The request: the blocks and the shape of every available container. */
  datatype BinRequest = BinRequest(blocks: seq<Block>, containers: seq<Shape>) {
    function NBlocks(): (n: nat)
      ensures n == |blocks|
    {
      |blocks|
    }
  }

  // ---- evaluating one container ----

  /** Block i of the list was placed at `corners[6 + i]`, given the walls and the blocks listed before it. */
  predicate Places(place: Placer, list: seq<Solid>, corners: seq<Corner>, i: int)
    requires 0 <= i < |list| && NWalls + i < |corners|
  {
    var res := place(list[i].shape, Walls(NWalls) + list[..i], corners[..NWalls + i]);
    res.Ok? && res.value.1 == corners[NWalls + i]
  }

  /** Appending a corner keeps the earlier blocks' placements and places block k
      when the engine put it there. */
  lemma PlacesExtend(place: Placer, list: seq<Solid>, corners: seq<Corner>, corner: Corner, k: nat)
    requires k < |list| && |corners| == NWalls + k
    requires forall i :: 0 <= i < k ==> Places(place, list, corners, i)
    requires var res := place(list[k].shape, Walls(NWalls) + list[..k], corners); res.Ok? && res.value.1 == corner
    ensures forall i :: 0 <= i < k + 1 ==> Places(place, list, corners + [corner], i)
  {
    var cs := corners + [corner];
    forall i | 0 <= i < k + 1 ensures Places(place, list, cs, i) {
      assert cs[..NWalls + i] == corners[..NWalls + i];
      if i < k {
        assert Places(place, list, corners, i);
      }
    }
  }

  /** The evaluation loop's state after the first k listed blocks. */
  function ContainerPack(place: Placer, list: seq<Solid>, container: Shape, k: nat): (r: Result<Pack>)
    requires k <= |list|
    ensures r.Ok? ==>
      && r.value.obstacles == Walls(NWalls) + list[..k]
      && |r.value.corners| == NWalls + k && r.value.corners[..NWalls] == WallCorners(container)
      && 0 <= r.value.maxHeight < INF && r.value.unstacked <= k
      && forall i :: 0 <= i < k ==> Places(place, list, r.value.corners, i)
  {
    if k == 0 then
      Ok(Pack(Walls(NWalls), WallCorners(container), 0, 0))
    else
      var p :- ContainerPack(place, list, container, k - 1);
      var tc :- place(list[k - 1].shape, p.obstacles, p.corners);
      var cs := p.corners + [tc.1];
      assert list[..k] == list[..k - 1] + [list[k - 1]];
      PlacesExtend(place, list, p.corners, tc.1, k - 1);
      Ok(Pack(p.obstacles + [list[k - 1]], cs,
              if tc.0 >= INF then p.maxHeight else Max(p.maxHeight, tc.0),
              if tc.0 >= INF then p.unstacked + 1 else p.unstacked))
  }

  /** `__calc_score_and_corners`: the highest finite top plus 1e10 for every block
      that found no stackable point, and one corner per listed block, in list order. */
  function ContainerScore(place: Placer, list: seq<Solid>, container: Shape): Result<(real, seq<Corner>)> {
    var p :- ContainerPack(place, list, container, |list|);
    Ok((p.maxHeight as real + BlockUnstackedPenalty * p.unstacked as real, p.corners[NWalls..]))
  }

  lemma {:induction false} ContainerPackErrSticks(place: Placer, list: seq<Solid>, container: Shape, k: nat, m: nat)
    requires k <= m <= |list| && ContainerPack(place, list, container, k).Err?
    ensures ContainerPack(place, list, container, m) == ContainerPack(place, list, container, k)
    decreases m
  {
    if m > k {
      ContainerPackErrSticks(place, list, container, k, m - 1);
    }
  }

  method EvalContainer(place: Placer, list: seq<Solid>, container: Shape) returns (r: Result<(real, seq<Corner>)>)
    ensures r == ContainerScore(place, list, container)
  {
    var obstacles := Walls(NWalls);
    var cs := WallCorners(container);
    var maxHeight, unstacked := 0, 0;
    for k := 0 to |list|
      invariant ContainerPack(place, list, container, k) == Ok(Pack(obstacles, cs, maxHeight, unstacked))
    {
      var res := place(list[k].shape, obstacles, cs);
      if res.Err? {
        ContainerPackErrSticks(place, list, container, k + 1, |list|);
        return Err(res.error);
      }
      var top, corner := res.value.0, res.value.1;
      if top >= INF {
        unstacked := unstacked + 1;
      } else {
        maxHeight := Max(maxHeight, top);
      }
      obstacles := obstacles + [list[k]];
      cs := cs + [corner];
    }
    r := Ok((maxHeight as real + BlockUnstackedPenalty * unstacked as real, cs[NWalls..]));
  }

  /** What a container's score and corners mean: one corner per listed block, each
      where the engine put it among the six walls and the blocks before it; the
      score is non-negative, and its multiple of 1e10 counts the unstacked blocks. */
  lemma ContainerScoreMeaning(place: Placer, list: seq<Solid>, container: Shape)
    ensures var r := ContainerScore(place, list, container);
            r.Ok? ==>
              var p := ContainerPack(place, list, container, |list|).value;
              && |r.value.1| == |list|
              && (forall i :: 0 <= i < |list| ==> Places(place, list, WallCorners(container) + r.value.1, i))
              && r.value.0 >= 0.0
              && BlockUnstackedPenalty * p.unstacked as real <= r.value.0 < BlockUnstackedPenalty * (p.unstacked + 1) as real
              && (r.value.0 < BlockUnstackedPenalty <==> p.unstacked == 0)
  {
    var r := ContainerScore(place, list, container);
    if r.Ok? {
      var p := ContainerPack(place, list, container, |list|).value;
      assert WallCorners(container) + r.value.1 == p.corners;
    }
  }

  /** A score function for one container's listed blocks. */
  type ContainerEvaluator = (seq<Solid>, Shape) -> Result<(real, seq<Corner>)>

  function ContainerEvaluatorOf(place: Placer): ContainerEvaluator {
    (list: seq<Solid>, container: Shape) => ContainerScore(place, list, container)
  }

  /** An evaluator that reports one corner per listed block. */
  ghost predicate KeepsLength(evaluate: ContainerEvaluator) {
    forall list, container :: evaluate(list, container).Ok? ==> |evaluate(list, container).value.1| == |list|
  }

  lemma EngineKeepsLength(place: Placer)
    ensures KeepsLength(ContainerEvaluatorOf(place))
  {
    forall list, container | ContainerScore(place, list, container).Ok?
      ensures |ContainerScore(place, list, container).value.1| == |list|
    {
      ContainerScoreMeaning(place, list, container);
    }
  }

  // ---- the containers' lists ----

  /** Every block index held by some container, with multiplicity. */
  ghost function Pool(a: seq<seq<int>>): multiset<int> {
    if a == [] then multiset{} else Pool(a[..|a| - 1]) + multiset(a[|a| - 1])
  }

  lemma {:induction false} PoolUpdate(a: seq<seq<int>>, c: int, l: seq<int>)
    requires 0 <= c < |a|
    ensures Pool(a[c := l]) + multiset(a[c]) == Pool(a) + multiset(l)
  {
    var n := |a| - 1;
    var b := a[c := l];
    if c < n {
      assert b[..n] == a[..n][c := l] && a[..n][c] == a[c] && b[n] == a[n];
      PoolUpdate(a[..n], c, l);
      calc {
        Pool(b) + multiset(a[c]);
        Pool(b[..n]) + multiset(a[n]) + multiset(a[c]);
        (Pool(a[..n][c := l]) + multiset(a[..n][c])) + multiset(a[n]);
        (Pool(a[..n]) + multiset(l)) + multiset(a[n]);
        Pool(a) + multiset(l);
      }
    } else {
      assert b[..n] == a[..n] && b[n] == l;
      calc {
        Pool(b) + multiset(a[c]);
        Pool(a[..n]) + multiset(l) + multiset(a[n]);
        Pool(a) + multiset(l);
      }
    }
  }

  lemma Cancel(m1: multiset<int>, m2: multiset<int>, m3: multiset<int>)
    requires m1 + m3 == m2 + m3
    ensures m1 == m2
  {
    forall y ensures m1[y] == m2[y] {
      assert (m1 + m3)[y] == (m2 + m3)[y];
    }
  }

  /** Each list's indices are part of the pool. */
  lemma PoolHolds(a: seq<seq<int>>, c: int, x: int)
    requires 0 <= c < |a|
    ensures Pool(a)[x] >= multiset(a[c])[x]
  {
    PoolUpdate(a, c, []);
  }

  /** No block index is held twice, in one list or across two. */
  ghost predicate Once(a: seq<seq<int>>) {
    Unique(Pool(a))
  }

  ghost predicate Unique(m: multiset<int>) {
    forall x :: m[x] <= 1
  }

  /** Two lists' counts of x add up within the pool. */
  lemma PoolTwo(a: seq<seq<int>>, c1: int, c2: int, x: int)
    requires 0 <= c1 < |a| && 0 <= c2 < |a| && c1 != c2
    ensures Pool(a)[x] >= multiset(a[c1])[x] + multiset(a[c2])[x]
  {
    var b := a[c1 := []];
    PoolUpdate(a, c1, []);
    assert Pool(b) + multiset(a[c1]) == Pool(a);
    PoolHolds(b, c2, x);
    assert b[c2] == a[c2];
  }

  /** Equal values at two positions count twice. */
  lemma SameTwice(s: seq<int>, i: int, j: int)
    requires 0 <= i < |s| && 0 <= j < |s| && i != j
    ensures s[i] == s[j] ==> multiset(s)[s[i]] >= 2
  {
    if s[i] == s[j] {
      if i < j { CountTwice(s, i, j); } else { CountTwice(s, j, i); }
    }
  }

  lemma OnceDistinct(a: seq<seq<int>>, c1: int, i1: int, c2: int, i2: int)
    requires Once(a) && 0 <= c1 < |a| && 0 <= i1 < |a[c1]| && 0 <= c2 < |a| && 0 <= i2 < |a[c2]|
    requires c1 != c2 || i1 != i2
    ensures a[c1][i1] != a[c2][i2]
  {
    var x, y := a[c1][i1], a[c2][i2];
    assert x in multiset(a[c1]) && y in multiset(a[c2]);
    assert Pool(a)[x] <= 1;
    if c1 == c2 {
      PoolHolds(a, c1, x);
      SameTwice(a[c1], i1, i2);
    } else {
      PoolTwo(a, c1, c2, x);
    }
  }

  /** An index held by container c is held by no other container. */
  lemma OnceElsewhere(a: seq<seq<int>>, c: int, x: int)
    requires Once(a) && 0 <= c < |a| && x in a[c]
    ensures forall c', i :: 0 <= c' < |a| && c' != c && 0 <= i < |a[c']| ==> a[c'][i] != x
  {
    var j :| 0 <= j < |a[c]| && a[c][j] == x;
    forall c', i | 0 <= c' < |a| && c' != c && 0 <= i < |a[c']| ensures a[c'][i] != x {
      OnceDistinct(a, c, j, c', i);
    }
  }

  /** Python's `list.insert(i, x)` for 0 <= i: past the end it appends. */
  function Insert(l: seq<int>, i: nat, x: int): (r: seq<int>)
    ensures multiset(r) == multiset(l) + multiset{x} && |r| == |l| + 1
  {
    if i >= |l| then l + [x]
    else
      assert l == l[..i] + l[i..];
      l[..i] + [x] + l[i..]
  }

  /** Where Python's `list.remove(x)` finds x: its first occurrence. */
  function FirstIndex(l: seq<int>, x: int): (i: nat)
    requires x in l
    ensures i < |l| && l[i] == x && forall k :: 0 <= k < i ==> l[k] != x
  {
    if l[0] == x then 0 else 1 + FirstIndex(l[1..], x)
  }

  /** Python's `list.remove(x)`: drops the first occurrence. */
  function RemoveFirst(l: seq<int>, x: int): (r: seq<int>)
    requires x in l
    ensures multiset(r) == multiset(l) - multiset{x} && |r| == |l| - 1
  {
    var i := FirstIndex(l, x);
    assert l == l[..i] + [x] + l[i + 1..];
    l[..i] + l[i + 1..]
  }

  /** A value that was not there is removed again from where it was inserted. */
  lemma RemoveInserted(l: seq<int>, i: nat, x: int)
    requires x !in l
    ensures RemoveFirst(Insert(l, i, x), x) == l
  {
    var m := Insert(l, i, x);
    var p := if i >= |l| then |l| else i;
    assert m[p] == x && m[..p] == l[..p];
    assert m[p + 1..] == l[p..];
    assert forall k :: 0 <= k < p ==> m[k] == l[k];
    assert FirstIndex(m, x) == p;
    assert l == l[..p] + l[p..];
  }

  function Sum(s: seq<real>): real {
    if s == [] then 0.0 else Sum(s[..|s| - 1]) + s[|s| - 1]
  }

  lemma {:induction false} SumUpdate(s: seq<real>, i: int, v: real)
    requires 0 <= i < |s|
    ensures Sum(s[i := v]) == Sum(s) - s[i] + v
  {
    var n := |s| - 1;
    if i < n {
      assert s[i := v][..n] == s[..n][i := v];
      SumUpdate(s[..n], i, v);
    } else {
      assert s[i := v][..n] == s[..n];
    }
  }

  function NonEmpty(a: seq<seq<int>>): nat {
    if a == [] then 0 else NonEmpty(a[..|a| - 1]) + if |a[|a| - 1]| > 0 then 1 else 0
  }

  // ---- the shift's score difference ----

  /** The change in the sum of scores that the shift's `diff` is meant to be: a
      container that is both source and target counts once. */
  function ShiftDiff(c1: int, c2: int, old1: real, old2: real, s1: real, s2: real): real {
    if c1 == c2 then s1 - old1 else (s1 - old1) + (s2 - old2)
  }

  /** The shift's `diff` as written: both terms always added. */
  function ShiftDiffAsWritten(old1: real, old2: real, s1: real, s2: real): real {
    (s1 - old1) + (s2 - old2)
  }

  /** With both containers the same, the written `diff` moves the running total by
      twice the change of the sum of scores, so total − Σ scores drifts. */
  lemma ShiftAsWrittenDrifts(scores: seq<real>, c: int, s: real, offset: real)
    requires 0 <= c < |scores| && s != scores[c]
    ensures Sum(scores) + offset + ShiftDiffAsWritten(scores[c], scores[c], s, s) != Sum(scores[c := s][c := s]) + offset
  {
    SumUpdate(scores, c, s);
    assert scores[c := s][c := s] == scores[c := s];
  }

  /** The intended `diff` keeps total − Σ scores fixed, whether or not the two containers coincide. */
  lemma ShiftDiffKeepsTotal(scores: seq<real>, c1: int, c2: int, s1: real, s2: real, offset: real)
    requires 0 <= c1 < |scores| && 0 <= c2 < |scores| && (c1 == c2 ==> s1 == s2)
    ensures Sum(scores) + offset + ShiftDiff(c1, c2, scores[c1], scores[c2], s1, s2) == Sum(scores[c1 := s1][c2 := s2]) + offset
  {
    SumUpdate(scores, c1, s1);
    SumUpdate(scores[c1 := s1], c2, s2);
  }

  /** Every list holds indices below n. */
  predicate AllIn(a: seq<seq<int>>, n: int) {
    forall c :: 0 <= c < |a| ==> OrderIn(a[c], n)
  }

  lemma OrderInSub(l: seq<int>, r: seq<int>, n: int)
    requires OrderIn(l, n) && multiset(r) <= multiset(l)
    ensures OrderIn(r, n)
  {
    forall i | 0 <= i < |r| ensures 0 <= r[i] < n {
      assert r[i] in multiset(l);
      var j :| 0 <= j < |l| && l[j] == r[i];
    }
  }

  /** The lists after moving the index at position i1 of list c1 to position i2
      of list c2, the one list when c1 == c2: `remove` from the first, then `insert`
      into the second. */
  function Shifted(a: seq<seq<int>>, c1: int, c2: int, i1: int, i2: nat): (r: seq<seq<int>>)
    requires 0 <= c1 < |a| && 0 <= c2 < |a| && 0 <= i1 < |a[c1]|
    ensures |r| == |a|
  {
    var x := a[c1][i1];
    var removed := a[c1 := RemoveFirst(a[c1], x)];
    removed[c2 := Insert(removed[c2], i2, x)]
  }

  /** The rollback of a shift: `remove` the index from list c2, `insert` it back at i1 in list c1. */
  function Unshifted(a: seq<seq<int>>, c1: int, c2: int, i1: nat, x: int): (r: seq<seq<int>>)
    requires 0 <= c1 < |a| && 0 <= c2 < |a| && x in a[c2]
    ensures |r| == |a|
  {
    var removed := a[c2 := RemoveFirst(a[c2], x)];
    removed[c1 := Insert(removed[c1], i1, x)]
  }

  /** A shift keeps the pool of indices. */
  lemma ShiftedPool(a: seq<seq<int>>, c1: int, c2: int, i1: int, i2: nat)
    requires 0 <= c1 < |a| && 0 <= c2 < |a| && 0 <= i1 < |a[c1]|
    ensures Pool(Shifted(a, c1, c2, i1, i2)) == Pool(a)
  {
    var x := a[c1][i1];
    assert x in a[c1];
    var m := multiset(a[c1]);
    var rest := RemoveFirst(a[c1], x);
    var removed := a[c1 := rest];
    var ins := Insert(removed[c2], i2, x);
    PoolUpdate(a, c1, rest);
    assert m == (m - multiset{x}) + multiset{x};
    assert (Pool(removed) + multiset{x}) + (m - multiset{x}) == Pool(a) + (m - multiset{x});
    Cancel(Pool(removed) + multiset{x}, Pool(a), m - multiset{x});
    PoolUpdate(removed, c2, ins);
    Cancel(Pool(removed[c2 := ins]), Pool(removed) + multiset{x}, multiset(removed[c2]));
  }

  /** A shift keeps every index in range and leaves the other lists alone. */
  lemma ShiftedRange(a: seq<seq<int>>, c1: int, c2: int, i1: int, i2: nat, n: int)
    requires 0 <= c1 < |a| && 0 <= c2 < |a| && 0 <= i1 < |a[c1]| && AllIn(a, n)
    ensures AllIn(Shifted(a, c1, c2, i1, i2), n)
    ensures forall c :: 0 <= c < |a| && c != c1 && c != c2 ==> Shifted(a, c1, c2, i1, i2)[c] == a[c]
  {
    var x := a[c1][i1];
    var rest := RemoveFirst(a[c1], x);
    var removed := a[c1 := rest];
    OrderInSub(a[c1], rest, n);
    OrderInSub(removed[c2] + [x], Insert(removed[c2], i2, x), n);
  }

  lemma InsertRemoved(l: seq<int>, i: int)
    requires 0 <= i < |l|
    ensures Insert(l[..i] + l[i + 1..], i, l[i]) == l
  {
    var r := l[..i] + l[i + 1..];
    if i < |r| {
      assert r[..i] == l[..i] && r[i..] == l[i + 1..];
    }
  }

  /** Under Once, the index at position i1 of list c1 occurs nowhere else. */
  lemma OnlyAt(a: seq<seq<int>>, c1: int, i1: int)
    requires Once(a) && 0 <= c1 < |a| && 0 <= i1 < |a[c1]|
    ensures var l, x := a[c1], a[c1][i1];
            (forall k :: 0 <= k < i1 ==> l[k] != x) && x !in l[..i1] + l[i1 + 1..]
            && forall c :: 0 <= c < |a| && c != c1 ==> x !in a[c]
  {
    var l, x := a[c1], a[c1][i1];
    forall j | 0 <= j < |l| && j != i1 ensures l[j] != x {
      OnceDistinct(a, c1, j, c1, i1);
    }
    OnceElsewhere(a, c1, x);
  }

  /** A rejected shift restores every list, positions included, also when c1 == c2. */
  lemma UnshiftedRestores(a: seq<seq<int>>, c1: int, c2: int, i1: int, i2: nat)
    requires Once(a) && 0 <= c1 < |a| && 0 <= c2 < |a| && 0 <= i1 < |a[c1]|
    ensures var x := a[c1][i1];
            var s := Shifted(a, c1, c2, i1, i2);
            x in s[c2] && Unshifted(s, c1, c2, i1, x) == a
  {
    var l1, x := a[c1], a[c1][i1];
    OnlyAt(a, c1, i1);
    assert FirstIndex(l1, x) == i1;
    var rest := l1[..i1] + l1[i1 + 1..];
    var removed := a[c1 := rest];
    var ins := Insert(removed[c2], i2, x);
    assert x in multiset(ins);
    RemoveInserted(removed[c2], i2, x);
    InsertRemoved(l1, i1);
    var s := removed[c2 := ins];
    var back := s[c2 := removed[c2]];
    assert back == removed;
    assert Unshifted(s, c1, c2, i1, x) == back[c1 := Insert(rest, i1, x)];
  }

  /** Every container's score and corners are the evaluator's verdict on its current list. */
  ghost predicate Scored(evaluate: ContainerEvaluator, solids: seq<Solid>, containers: seq<Shape>,
                         a: seq<seq<int>>, scores: seq<real>, corners: seq<seq<Corner>>)
  {
    && |a| == |containers| && |scores| == |a| && |corners| == |a| && AllIn(a, |solids|)
    && forall c :: 0 <= c < |a| ==> evaluate(InOrder(solids, a[c]), containers[c]) == Ok((scores[c], corners[c]))
  }

  lemma ScoredUpdate(evaluate: ContainerEvaluator, solids: seq<Solid>, containers: seq<Shape>,
                     a: seq<seq<int>>, scores: seq<real>, corners: seq<seq<Corner>>,
                     c: int, l: seq<int>, s: real, cs: seq<Corner>)
    requires Scored(evaluate, solids, containers, a, scores, corners) && 0 <= c < |a| && OrderIn(l, |solids|)
    requires evaluate(InOrder(solids, l), containers[c]) == Ok((s, cs))
    ensures Scored(evaluate, solids, containers, a[c := l], scores[c := s], corners[c := cs])
  {
  }

  /** Lists that do not hold block b are laid out the same after b is rotated. */
  lemma RotateElsewhere(solids: seq<Solid>, b: int, axis: int, l: seq<int>)
    requires 0 <= b < |solids| && 0 <= axis < 3 && OrderIn(l, |solids|) && b !in l
    ensures InOrder(RotateAt(solids, b, axis), l) == InOrder(solids, l)
  {
  }

  lemma ScoredRotate(evaluate: ContainerEvaluator, solids: seq<Solid>, containers: seq<Shape>,
                     a: seq<seq<int>>, scores: seq<real>, corners: seq<seq<Corner>>,
                     c: int, b: int, axis: int, s: real, cs: seq<Corner>)
    requires Scored(evaluate, solids, containers, a, scores, corners) && 0 <= c < |a|
    requires 0 <= b < |solids| && 0 <= axis < 3
    requires forall c' :: 0 <= c' < |a| && c' != c ==> b !in a[c']
    requires evaluate(InOrder(RotateAt(solids, b, axis), a[c]), containers[c]) == Ok((s, cs))
    ensures Scored(evaluate, RotateAt(solids, b, axis), containers, a, scores[c := s], corners[c := cs])
  {
    forall c' | 0 <= c' < |a| && c' != c
      ensures InOrder(RotateAt(solids, b, axis), a[c']) == InOrder(solids, a[c'])
    {
      RotateElsewhere(solids, b, axis, a[c']);
    }
  }

  /** The lists after swapping two positions of list c. */
  function SwapIn(a: seq<seq<int>>, c: int, i1: int, i2: int): (r: seq<seq<int>>)
    requires 0 <= c < |a| && 0 <= i1 < |a[c]| && 0 <= i2 < |a[c]|
    ensures |r| == |a| && |r[c]| == |a[c]|
  {
    a[c := Swapped(a[c], i1, i2)]
  }

  /** A swap keeps the pool of indices and their range, and undoes itself. */
  lemma SwapInKeeps(a: seq<seq<int>>, c: int, i1: int, i2: int, n: int)
    requires 0 <= c < |a| && 0 <= i1 < |a[c]| && 0 <= i2 < |a[c]| && AllIn(a, n)
    ensures Pool(SwapIn(a, c, i1, i2)) == Pool(a) && AllIn(SwapIn(a, c, i1, i2), n)
    ensures SwapIn(SwapIn(a, c, i1, i2), c, i1, i2) == a
  {
    var l := Swapped(a[c], i1, i2);
    SwappedKeepsMultiset(a[c], i1, i2);
    SwappedTwice(a[c], i1, i2);
    PoolUpdate(a, c, l);
    Cancel(Pool(a[c := l]), Pool(a), multiset(a[c]));
    OrderInSub(a[c], l, n);
  }

  /** The loop of `initialize`: every container's score and corners, and their
      sum plus 1e5 for every container that holds a block. */
  method EvalAll(evaluate: ContainerEvaluator, solids: seq<Solid>, containers: seq<Shape>, a: seq<seq<int>>)
    returns (r: Result<(seq<real>, seq<seq<Corner>>, real)>)
    requires |a| == |containers| && AllIn(a, |solids|)
    ensures r.Err? <==> exists c :: 0 <= c < |a| && evaluate(InOrder(solids, a[c]), containers[c]).Err?
    ensures r.Ok? ==>
              var (scores, corners, total) := r.value;
              && |scores| == |a| && |corners| == |a|
              && (forall c :: 0 <= c < |a| ==> evaluate(InOrder(solids, a[c]), containers[c]) == Ok((scores[c], corners[c])))
              && total == Sum(scores) + ContainerUsedPenalty * NonEmpty(a) as real
  {
    var corners: seq<seq<Corner>> := [];
    var scores: seq<real> := [];
    var total := 0.0;
    var nContainers := 0;
    for c := 0 to |a|
      invariant |corners| == c && |scores| == c && nContainers == NonEmpty(a[..c])
      invariant total == Sum(scores)
      invariant forall c' :: 0 <= c' < c ==> evaluate(InOrder(solids, a[c']), containers[c']) == Ok((scores[c'], corners[c']))
    {
      assert a[..c + 1][..c] == a[..c];
      if |a[c]| > 0 {
        nContainers := nContainers + 1;
      }
      var e := evaluate(InOrder(solids, a[c]), containers[c]);
      if e.Err? {
        return Err(e.error);
      }
      total := total + e.value.0;
      assert (scores + [e.value.0])[..c] == scores;
      corners := corners + [e.value.1];
      scores := scores + [e.value.0];
    }
    assert a[..|a|] == a;
    r := Ok((scores, corners, total + ContainerUsedPenalty * nContainers as real));
  }

  /** Two containers re-evaluated, every other list as it was. */
  lemma ScoredTwo(evaluate: ContainerEvaluator, solids: seq<Solid>, containers: seq<Shape>,
                  a0: seq<seq<int>>, a: seq<seq<int>>, scores: seq<real>, corners: seq<seq<Corner>>,
                  c1: int, c2: int, s1: real, cs1: seq<Corner>, s2: real, cs2: seq<Corner>)
    requires Scored(evaluate, solids, containers, a0, scores, corners)
    requires |a| == |a0| && AllIn(a, |solids|) && 0 <= c1 < |a| && 0 <= c2 < |a|
    requires forall c :: 0 <= c < |a| && c != c1 && c != c2 ==> a[c] == a0[c]
    requires evaluate(InOrder(solids, a[c1]), containers[c1]) == Ok((s1, cs1))
    requires evaluate(InOrder(solids, a[c2]), containers[c2]) == Ok((s2, cs2))
    ensures Scored(evaluate, solids, containers, a, scores[c1 := s1][c2 := s2], corners[c1 := cs1][c2 := cs2])
  {
  }

  /** Under Once, position i of list c is the only place its index occurs. */
  lemma OnlyHere(a: seq<seq<int>>, c: int, i: int)
    requires Once(a) && 0 <= c < |a| && 0 <= i < |a[c]|
    ensures forall c', i' :: 0 <= c' < |a| && 0 <= i' < |a[c']| && (c' != c || i' != i) ==> a[c'][i'] != a[c][i]
  {
    forall c', i' | 0 <= c' < |a| && 0 <= i' < |a[c']| && (c' != c || i' != i) ensures a[c'][i'] != a[c][i] {
      OnceDistinct(a, c', i', c, i);
    }
  }

  /** An index outside the pool is in no list. */
  lemma OutsidePool(a: seq<seq<int>>, b: int)
    requires b !in Pool(a)
    ensures forall c :: 0 <= c < |a| ==> b !in a[c]
  {
    forall c | 0 <= c < |a| ensures b !in a[c] {
      PoolHolds(a, c, b);
    }
  }

  /** The inner loop of `response`: container c's blocks get c and their corners. */
  method RecordContainer(indexes: seq<int>, corners: seq<Corner>, c: int, list: seq<int>, cs: seq<Corner>)
    returns (indexes': seq<int>, corners': seq<Corner>)
    requires |corners| == |indexes| && |cs| == |list| && OrderIn(list, |indexes|)
    requires forall i, j :: 0 <= i < j < |list| ==> list[i] != list[j]
    ensures |indexes'| == |indexes| && |corners'| == |corners|
    ensures forall i :: 0 <= i < |list| ==> indexes'[list[i]] == c && corners'[list[i]] == cs[i]
    ensures forall b :: 0 <= b < |indexes| && b !in list ==> indexes'[b] == indexes[b] && corners'[b] == corners[b]
  {
    indexes', corners' := indexes, corners;
    for i := 0 to |list|
      invariant |indexes'| == |indexes| && |corners'| == |corners|
      invariant forall i' :: 0 <= i' < i ==> indexes'[list[i']] == c && corners'[list[i']] == cs[i']
      invariant forall b :: 0 <= b < |indexes| && b !in list[..i] ==> indexes'[b] == indexes[b] && corners'[b] == corners[b]
    {
      assert list[..i + 1] == list[..i] + [list[i]];
      indexes' := indexes'[list[i] := c];
      corners' := corners'[list[i] := cs[i]];
    }
    assert list[..|list|] == list;
  }

  /** The loops of `response` over the lists a of n blocks and their corners. */
  method Responses(n: nat, a: seq<seq<int>>, cornerLists: seq<seq<Corner>>) returns (indexes: seq<int>, corners: seq<Corner>)
    requires Once(a) && AllIn(a, n) && |cornerLists| == |a|
    requires forall c :: 0 <= c < |a| ==> |cornerLists[c]| == |a[c]|
    ensures |indexes| == n && |corners| == n
    ensures forall c, i :: 0 <= c < |a| && 0 <= i < |a[c]| ==>
              indexes[a[c][i]] == c && corners[a[c][i]] == cornerLists[c][i]
    ensures forall b :: 0 <= b < n && b !in Pool(a) ==> indexes[b] == -1 && corners[b] == Corner(INF, INF, INF)
  {
    indexes := seq(n, _ => -1);
    corners := seq(n, _ => Corner(INF, INF, INF));
    for c := 0 to |a|
      invariant |indexes| == n && |corners| == n
      invariant forall c', i :: 0 <= c' < c && 0 <= i < |a[c']| ==>
                  indexes[a[c'][i]] == c' && corners[a[c'][i]] == cornerLists[c'][i]
      invariant forall b :: 0 <= b < n && b !in Pool(a[..c]) ==>
                  indexes[b] == -1 && corners[b] == Corner(INF, INF, INF)
    {
      var list := a[c];
      forall i, j | 0 <= i < j < |list| ensures list[i] != list[j] {
        OnceDistinct(a, c, i, c, j);
      }
      ghost var indexes0, corners0 := indexes, corners;
      indexes, corners := RecordContainer(indexes, corners, c, list, cornerLists[c]);
      forall c', i | 0 <= c' < c + 1 && 0 <= i < |a[c']|
        ensures indexes[a[c'][i]] == c' && corners[a[c'][i]] == cornerLists[c'][i]
      {
        if c' < c {
          OnceElsewhere(a, c', a[c'][i]);
          assert a[c'][i] !in list;
          assert indexes0[a[c'][i]] == c' && corners0[a[c'][i]] == cornerLists[c'][i];
        }
      }
      assert a[..c + 1][..c] == a[..c];
      assert Pool(a[..c + 1]) == Pool(a[..c]) + multiset(list);
    }
    assert a[..|a|] == a;
  }

  /** One transition's random draws: `rnd` picks the move (swap below 1/3, rotate
      below 2/3, shift otherwise), then the move's own container, position and axis
      picks, and log(rnd) of the Metropolis test. */
  datatype BinMove = BinMove(
    rnd: real,
    swapContainer: int, swap1: int, swap2: int,
    rotateContainer: int, rotateBlock: int, pick: nat,
    from: int, to: int, fromPos: int, toPos: nat,
    logRnd: real)

  class BinPacker {
    const request: BinRequest
    /** The per-container score function with the engine fixed. */
    const evaluate: ContainerEvaluator
    const blocks: seq<Block>
    var assignment: seq<seq<int>>
    var assignedCorners: seq<seq<Corner>>
    var assignedScores: seq<real>
    var totalScore: real
    /** The block indices held by the containers, fixed by the initial assignment. */
    ghost const pool: multiset<int>
    /** total − Σ scores, fixed by the initial assignment. */
    ghost const offset: real

    /** The solids listed in container c, in list order. */
    function Listed(c: int): (r: seq<Solid>)
      reads this, blocks
      requires 0 <= c < |assignment| && OrderIn(assignment[c], |blocks|)
      ensures |r| == |assignment[c]|
    {
      InOrder(SolidsOf(blocks), assignment[c])
    }

    /** The lists hold the initial pool of block indices, each once, all in range. */
    ghost predicate Lists()
      reads this
    {
      && |assignment| == |request.containers| && |assignedCorners| == |assignment| && |assignedScores| == |assignment|
      && AllIn(assignment, |blocks|)
      && Pool(assignment) == pool && Unique(pool)
    }

    /** Every container's score and corners are those of its current list, and the
        running total differs from their sum by the fixed offset. */
    ghost predicate Valid()
      reads this, blocks
    {
      && |blocks| == request.NBlocks()
      && Lists()
      && KeepsLength(evaluate)
      && Scored(evaluate, SolidsOf(blocks), request.containers, assignment, assignedScores, assignedCorners)
      && totalScore == Sum(assignedScores) + offset
    }

    constructor Init(request: BinRequest, evaluate: ContainerEvaluator, blocks: seq<Block>, assignment: seq<seq<int>>,
                     corners: seq<seq<Corner>>, scores: seq<real>, total: real, ghost offset: real)
      ensures this.request == request && this.evaluate == evaluate && this.blocks == blocks
      ensures this.assignment == assignment && assignedCorners == corners && assignedScores == scores
      ensures totalScore == total && pool == Pool(assignment) && this.offset == offset
    {
      this.request := request;
      this.evaluate := evaluate;
      this.blocks := blocks;
      this.assignment := assignment;
      assignedCorners := corners;
      assignedScores := scores;
      totalScore := total;
      pool := Pool(assignment);
      this.offset := offset;
    }

    /** `initialize`: copy the blocks, evaluate every container of the given
        assignment, and add 1e5 for every container that holds a block. */
    static method Create(place: Placer, request: BinRequest, initial: seq<seq<int>>) returns (r: Result<BinPacker>)
      requires |initial| == |request.containers|
      requires AllIn(initial, |request.blocks|) && Once(initial)
      ensures var solids := SolidsOf(request.blocks);
              && (r.Err? <==> exists c :: 0 <= c < |initial| && ContainerScore(place, InOrder(solids, initial[c]), request.containers[c]).Err?)
              && (r.Ok? ==>
                    var b := r.value;
                    && fresh(b) && b.Valid() && Distinct(b.blocks) && b.request == request && b.evaluate == ContainerEvaluatorOf(place)
                    && SolidsOf(b.blocks) == solids && b.assignment == initial && b.pool == Pool(initial)
                    && b.totalScore == Sum(b.assignedScores) + ContainerUsedPenalty * NonEmpty(initial) as real
                    && forall c :: 0 <= c < |initial| ==>
                         ContainerScore(place, InOrder(solids, initial[c]), request.containers[c]) == Ok((b.assignedScores[c], b.assignedCorners[c])))
    {
      var copies := CopyAll(request.blocks);
      var e := EvalAll(ContainerEvaluatorOf(place), SolidsOf(copies), request.containers, initial);
      if e.Err? {
        return Err(e.error);
      }
      var (scores, corners, total) := e.value;
      EngineKeepsLength(place);
      var b := new BinPacker.Init(request, ContainerEvaluatorOf(place), copies, initial, corners, scores, total,
                                  ContainerUsedPenalty * NonEmpty(initial) as real);
      r := Ok(b);
    }

    /** Accepting a one-container move: its new score and corners, and the total
        moved by exactly the score's change. */
    method Store(c: int, score: real, corners: seq<Corner>)
      requires |blocks| == request.NBlocks() && Lists() && KeepsLength(evaluate) && 0 <= c < |assignment|
      requires Scored(evaluate, SolidsOf(blocks), request.containers, assignment,
                      assignedScores[c := score], assignedCorners[c := corners])
      requires totalScore == Sum(assignedScores) + offset
      modifies this
      ensures Valid() && unchanged(`assignment)
      ensures assignedScores == old(assignedScores)[c := score] && assignedCorners == old(assignedCorners)[c := corners]
      ensures totalScore == old(totalScore) + (score - old(assignedScores[c]))
    {
      ghost var solids := SolidsOf(blocks);
      SumUpdate(assignedScores, c, score);
      assignedScores, assignedCorners, totalScore :=
        assignedScores[c := score], assignedCorners[c := corners], totalScore + (score - assignedScores[c]);
      assert SolidsOf(blocks) == solids;
    }

    /** `__rotate`: rotate block b of container ci about its picked axis,
        re-evaluate that container, keep or rotate back. */
    method Rotate(ci: int, b: int, pick: nat, logRnd: real, temperature: real) returns (r: Result<bool>)
      requires Valid() && Distinct(blocks) && 0 <= ci < |assignment| && 0 <= b < |blocks| && b in assignment[ci]
      requires pick < |blocks[b].rotatableAxes|
      modifies this, blocks[b]
      ensures Lists() && unchanged(`assignment)
      ensures var axis := blocks[b].rotatableAxes[pick];
              0 <= axis < 3 &&
              var rotated := RotateAt(old(SolidsOf(blocks)), b, axis);
              var e := evaluate(InOrder(rotated, assignment[ci]), request.containers[ci]);
              && (e.Err? ==> r == Err(e.error) && SolidsOf(blocks) == rotated
                             && unchanged(`assignedScores, `assignedCorners, `totalScore))
              && (e.Ok? ==>
                    && r.Ok? && Valid()
                    && (r.value <==> Accept(logRnd, temperature, e.value.0 - old(assignedScores[ci])))
                    && (r.value ==> && SolidsOf(blocks) == rotated
                                    && assignedScores == old(assignedScores)[ci := e.value.0]
                                    && assignedCorners == old(assignedCorners)[ci := e.value.1]
                                    && totalScore == old(totalScore) + (e.value.0 - old(assignedScores[ci])))
                    && (!r.value ==> SolidsOf(blocks) == old(SolidsOf(blocks))
                                     && unchanged(`assignedScores, `assignedCorners, `totalScore)))
    {
      ghost var before := SolidsOf(blocks);
      OnceElsewhere(assignment, ci, b);
      var axis := blocks[b].ChoiceRotateAxis(pick);
      TurnBlock(blocks, b, axis);
      var e := evaluate(Listed(ci), request.containers[ci]);
      if e.Err? {
        return Err(e.error);
      }
      var diff := e.value.0 - assignedScores[ci];
      if Accept(logRnd, temperature, diff) {
        ScoredRotate(evaluate, before, request.containers, assignment, assignedScores, assignedCorners,
                     ci, b, axis, e.value.0, e.value.1);
        Store(ci, e.value.0, e.value.1);
        return Ok(true);
      }
      TurnBlock(blocks, b, axis);
      RotateAtTwice(before, b, axis);
      r := Ok(false);
    }

    /** `__swap`: exchange two positions of container ci's list, re-evaluate it, keep or swap back. */
    method Swap(ci: int, i1: int, i2: int, logRnd: real, temperature: real) returns (r: Result<bool>)
      requires Valid() && 0 <= ci < |assignment| && 0 <= i1 < |assignment[ci]| && 0 <= i2 < |assignment[ci]|
      modifies this
      ensures Lists() && AllIn(SwapIn(old(assignment), ci, i1, i2), |blocks|) && SolidsOf(blocks) == old(SolidsOf(blocks))
      ensures var swapped := SwapIn(old(assignment), ci, i1, i2);
              var e := evaluate(InOrder(old(SolidsOf(blocks)), swapped[ci]), request.containers[ci]);
              && (e.Err? ==> r == Err(e.error) && assignment == swapped
                             && unchanged(`assignedScores, `assignedCorners, `totalScore))
              && (e.Ok? ==>
                    && r.Ok? && Valid()
                    && (r.value <==> Accept(logRnd, temperature, e.value.0 - old(assignedScores[ci])))
                    && (r.value ==> && assignment == swapped
                                    && assignedScores == old(assignedScores)[ci := e.value.0]
                                    && assignedCorners == old(assignedCorners)[ci := e.value.1]
                                    && totalScore == old(totalScore) + (e.value.0 - old(assignedScores[ci])))
                    && (!r.value ==> unchanged(`assignment, `assignedScores, `assignedCorners, `totalScore)))
    {
      SwapInKeeps(assignment, ci, i1, i2, |blocks|);
      ghost var a0, solids := assignment, SolidsOf(blocks);
      assignment := SwapIn(assignment, ci, i1, i2);
      assert SolidsOf(blocks) == solids;
      var e := evaluate(Listed(ci), request.containers[ci]);
      if e.Err? {
        return Err(e.error);
      }
      var diff := e.value.0 - assignedScores[ci];
      if Accept(logRnd, temperature, diff) {
        ScoredUpdate(evaluate, solids, request.containers, a0, assignedScores, assignedCorners,
                     ci, assignment[ci], e.value.0, e.value.1);
        Store(ci, e.value.0, e.value.1);
        return Ok(true);
      }
      assignment := SwapIn(assignment, ci, i1, i2);
      r := Ok(false);
    }

    /** Accepting a shift whose lists were shifted from a0: both containers' new
        scores and corners, and the total moved by `diff`. */
    method CommitShift(ghost a0: seq<seq<int>>, c1: int, c2: int,
                       s1: real, cs1: seq<Corner>, s2: real, cs2: seq<Corner>, diff: real)
      requires |blocks| == request.NBlocks() && KeepsLength(evaluate) && Unique(pool)
      requires Scored(evaluate, SolidsOf(blocks), request.containers, a0, assignedScores, assignedCorners)
      requires totalScore == Sum(assignedScores) + offset
      requires |assignment| == |a0| && 0 <= c1 < |a0| && 0 <= c2 < |a0|
      requires forall c :: 0 <= c < |a0| && c != c1 && c != c2 ==> assignment[c] == a0[c]
      requires AllIn(assignment, |blocks|) && Pool(assignment) == pool
      requires evaluate(Listed(c1), request.containers[c1]) == Ok((s1, cs1))
      requires evaluate(Listed(c2), request.containers[c2]) == Ok((s2, cs2))
      requires c1 == c2 ==> s1 == s2
      requires diff == ShiftDiff(c1, c2, assignedScores[c1], assignedScores[c2], s1, s2)
      modifies this
      ensures Valid() && unchanged(`assignment) && SolidsOf(blocks) == old(SolidsOf(blocks))
      ensures assignedScores == old(assignedScores)[c1 := s1][c2 := s2]
      ensures assignedCorners == old(assignedCorners)[c1 := cs1][c2 := cs2]
      ensures totalScore == old(totalScore) + diff
    {
      ScoredTwo(evaluate, SolidsOf(blocks), request.containers, a0, assignment, assignedScores, assignedCorners,
                c1, c2, s1, cs1, s2, cs2);
      ghost var solids := SolidsOf(blocks);
      ShiftDiffKeepsTotal(assignedScores, c1, c2, s1, s2, offset);
      assignedScores, assignedCorners, totalScore :=
        assignedScores[c1 := s1][c2 := s2], assignedCorners[c1 := cs1][c2 := cs2], totalScore + diff;
      assert SolidsOf(blocks) == solids;
      assert Scored(evaluate, solids, request.containers, assignment, assignedScores, assignedCorners);
      assert totalScore == Sum(assignedScores) + offset;
    }

    /** Rejecting a shift: `remove` the index from list c2 and `insert` it back at i1 in list c1. */
    method Unshift(ghost a0: seq<seq<int>>, ghost solids: seq<Solid>, c1: int, c2: int, i1: int, i2: nat, x: int)
      requires |blocks| == request.NBlocks() && KeepsLength(evaluate) && SolidsOf(blocks) == solids
      requires |a0| == |request.containers| && |assignedCorners| == |a0| && |assignedScores| == |a0|
      requires AllIn(a0, |blocks|) && Pool(a0) == pool && Unique(pool)
      requires Scored(evaluate, solids, request.containers, a0, assignedScores, assignedCorners)
      requires totalScore == Sum(assignedScores) + offset
      requires 0 <= c1 < |a0| && 0 <= c2 < |a0| && 0 <= i1 < |a0[c1]| && x == a0[c1][i1]
      requires assignment == Shifted(a0, c1, c2, i1, i2)
      modifies this
      ensures Valid() && SolidsOf(blocks) == solids
      ensures assignment == a0 && unchanged(`assignedScores, `assignedCorners, `totalScore)
    {
      Restore(a0, c1, c2, i1, i2, x);
      assert SolidsOf(blocks) == solids;
    }

    /** The two list operations of a rejected shift. */
    method Restore(ghost a0: seq<seq<int>>, c1: int, c2: int, i1: int, i2: nat, x: int)
      requires Once(a0) && 0 <= c1 < |a0| && 0 <= c2 < |a0| && 0 <= i1 < |a0[c1]| && x == a0[c1][i1]
      requires assignment == Shifted(a0, c1, c2, i1, i2)
      modifies this
      ensures assignment == a0 && unchanged(`assignedScores, `assignedCorners, `totalScore)
    {
      UnshiftedRestores(a0, c1, c2, i1, i2);
      assignment := Unshifted(assignment, c1, c2, i1, x);
    }

    /** `__shift`: move the index at position i1 of container c1 to position i2 of
        container c2, re-evaluate both (c1 first), keep both or move it back. The
        score change is `ShiftDiff`, which counts a container once when c1 == c2. */
    method Shift(c1: int, c2: int, i1: int, i2: nat, logRnd: real, temperature: real) returns (r: Result<bool>)
      requires Valid() && 0 <= c1 < |assignment| && 0 <= c2 < |assignment| && 0 <= i1 < |assignment[c1]|
      requires i2 <= |assignment[c2]|
      modifies this
      ensures Lists() && AllIn(Shifted(old(assignment), c1, c2, i1, i2), |blocks|) && SolidsOf(blocks) == old(SolidsOf(blocks))
      ensures var s := Shifted(old(assignment), c1, c2, i1, i2);
              var e1 := evaluate(InOrder(old(SolidsOf(blocks)), s[c1]), request.containers[c1]);
              var e2 := evaluate(InOrder(old(SolidsOf(blocks)), s[c2]), request.containers[c2]);
              && (e1.Err? ==> r == Err(e1.error) && assignment == s
                              && unchanged(`assignedScores, `assignedCorners, `totalScore))
              && (e1.Ok? && e2.Err? ==> r == Err(e2.error) && assignment == s
                                        && unchanged(`assignedScores, `assignedCorners, `totalScore))
              && (e1.Ok? && e2.Ok? ==>
                    var diff := ShiftDiff(c1, c2, old(assignedScores[c1]), old(assignedScores[c2]), e1.value.0, e2.value.0);
                    && r.Ok? && Valid()
                    && (r.value <==> Accept(logRnd, temperature, diff))
                    && (r.value ==> && assignment == s
                                    && assignedScores == old(assignedScores)[c1 := e1.value.0][c2 := e2.value.0]
                                    && assignedCorners == old(assignedCorners)[c1 := e1.value.1][c2 := e2.value.1]
                                    && totalScore == old(totalScore) + diff)
                    && (!r.value ==> unchanged(`assignment, `assignedScores, `assignedCorners, `totalScore)))
    {
      ShiftedPool(assignment, c1, c2, i1, i2);
      ShiftedRange(assignment, c1, c2, i1, i2, |blocks|);
      var x := assignment[c1][i1];
      ghost var a0, solids := assignment, SolidsOf(blocks);
      assignment := Shifted(assignment, c1, c2, i1, i2);
      assert SolidsOf(blocks) == solids;
      r := Settle(a0, solids, c1, c2, i1, i2, x, logRnd, temperature);
    }

    /** The rest of `__shift` once the index has moved from a0: evaluate both
        containers, then commit or move the index back. */
    method Settle(ghost a0: seq<seq<int>>, ghost solids: seq<Solid>, c1: int, c2: int, i1: int, i2: nat, x: int,
                  logRnd: real, temperature: real) returns (r: Result<bool>)
      requires |blocks| == request.NBlocks() && KeepsLength(evaluate) && SolidsOf(blocks) == solids
      requires |a0| == |request.containers| && |assignedCorners| == |a0| && |assignedScores| == |a0|
      requires AllIn(a0, |blocks|) && Pool(a0) == pool && Unique(pool)
      requires Scored(evaluate, solids, request.containers, a0, assignedScores, assignedCorners)
      requires totalScore == Sum(assignedScores) + offset
      requires 0 <= c1 < |a0| && 0 <= c2 < |a0| && 0 <= i1 < |a0[c1]| && x == a0[c1][i1]
      requires assignment == Shifted(a0, c1, c2, i1, i2) && AllIn(assignment, |blocks|) && Pool(assignment) == pool
      requires forall c :: 0 <= c < |a0| && c != c1 && c != c2 ==> assignment[c] == a0[c]
      modifies this
      ensures Lists() && SolidsOf(blocks) == solids
      ensures var s := Shifted(a0, c1, c2, i1, i2);
              var e1 := evaluate(InOrder(solids, s[c1]), request.containers[c1]);
              var e2 := evaluate(InOrder(solids, s[c2]), request.containers[c2]);
              && (e1.Err? ==> r == Err(e1.error) && assignment == s
                              && unchanged(`assignedScores, `assignedCorners, `totalScore))
              && (e1.Ok? && e2.Err? ==> r == Err(e2.error) && assignment == s
                                        && unchanged(`assignedScores, `assignedCorners, `totalScore))
              && (e1.Ok? && e2.Ok? ==>
                    var diff := ShiftDiff(c1, c2, old(assignedScores[c1]), old(assignedScores[c2]), e1.value.0, e2.value.0);
                    && r.Ok? && Valid()
                    && (r.value <==> Accept(logRnd, temperature, diff))
                    && (r.value ==> && assignment == s
                                    && assignedScores == old(assignedScores)[c1 := e1.value.0][c2 := e2.value.0]
                                    && assignedCorners == old(assignedCorners)[c1 := e1.value.1][c2 := e2.value.1]
                                    && totalScore == old(totalScore) + diff)
                    && (!r.value ==> assignment == a0 && unchanged(`assignedScores, `assignedCorners, `totalScore)))
    {
      var e1 := evaluate(Listed(c1), request.containers[c1]);
      if e1.Err? {
        return Err(e1.error);
      }
      var e2 := evaluate(Listed(c2), request.containers[c2]);
      if e2.Err? {
        return Err(e2.error);
      }
      var accepted := Decide(a0, solids, c1, c2, i1, i2, x, e1.value.0, e1.value.1, e2.value.0, e2.value.1,
                             logRnd, temperature);
      r := Ok(accepted);
    }

    /** The Metropolis test of `__shift` on both containers' new scores. */
    method Decide(ghost a0: seq<seq<int>>, ghost solids: seq<Solid>, c1: int, c2: int, i1: int, i2: nat, x: int,
                  s1: real, cs1: seq<Corner>, s2: real, cs2: seq<Corner>, logRnd: real, temperature: real)
      returns (accepted: bool)
      requires |blocks| == request.NBlocks() && KeepsLength(evaluate) && SolidsOf(blocks) == solids
      requires |a0| == |request.containers| && |assignedCorners| == |a0| && |assignedScores| == |a0|
      requires AllIn(a0, |blocks|) && Pool(a0) == pool && Unique(pool)
      requires Scored(evaluate, solids, request.containers, a0, assignedScores, assignedCorners)
      requires totalScore == Sum(assignedScores) + offset
      requires 0 <= c1 < |a0| && 0 <= c2 < |a0| && 0 <= i1 < |a0[c1]| && x == a0[c1][i1]
      requires assignment == Shifted(a0, c1, c2, i1, i2) && AllIn(assignment, |blocks|) && Pool(assignment) == pool
      requires forall c :: 0 <= c < |a0| && c != c1 && c != c2 ==> assignment[c] == a0[c]
      requires evaluate(Listed(c1), request.containers[c1]) == Ok((s1, cs1))
      requires evaluate(Listed(c2), request.containers[c2]) == Ok((s2, cs2))
      modifies this
      ensures Valid() && SolidsOf(blocks) == solids
      ensures var diff := ShiftDiff(c1, c2, old(assignedScores[c1]), old(assignedScores[c2]), s1, s2);
              && (accepted <==> Accept(logRnd, temperature, diff))
              && (accepted ==> && unchanged(`assignment)
                               && assignedScores == old(assignedScores)[c1 := s1][c2 := s2]
                               && assignedCorners == old(assignedCorners)[c1 := cs1][c2 := cs2]
                               && totalScore == old(totalScore) + diff)
              && (!accepted ==> assignment == a0 && unchanged(`assignedScores, `assignedCorners, `totalScore))
    {
      var diff := ShiftDiff(c1, c2, assignedScores[c1], assignedScores[c2], s1, s2);
      accepted := Accept(logRnd, temperature, diff);
      if accepted {
        CommitShift(a0, c1, c2, s1, cs1, s2, cs2, diff);
      } else {
        Unshift(a0, solids, c1, c2, i1, i2, x);
      }
    }

    /** Some container holds a block, so the list every move draws its container
        from is not empty. */
    predicate Drawable()
      reads this
    {
      exists c :: 0 <= c < |assignment| && |assignment[c]| > 0
    }

    /** The draws a transition needs: positions inside the chosen lists, the rotated
        block held by its container, and only non-empty containers chosen. With every
        container empty any draws fit, since the move fails before using them. */
    predicate MoveFits(m: BinMove)
      reads this
    {
      Drawable() ==>
        if m.rnd < 1.0 / 3.0 then
          && 0 <= m.swapContainer < |assignment|
          && 0 <= m.swap1 < |assignment[m.swapContainer]| && 0 <= m.swap2 < |assignment[m.swapContainer]|
        else if m.rnd < 2.0 / 3.0 then
          && 0 <= m.rotateContainer < |assignment| && 0 <= m.rotateBlock < |blocks|
          && m.rotateBlock in assignment[m.rotateContainer] && m.pick < |blocks[m.rotateBlock].rotatableAxes|
        else
          && 0 <= m.from < |assignment| && 0 <= m.to < |assignment| && |assignment[m.to]| > 0
          && 0 <= m.fromPos < |assignment[m.from]| && m.toPos <= |assignment[m.to]|
    }

    /** `transit`: a swap when rnd < 1/3, a rotate when rnd < 2/3, a shift otherwise,
        each with the outcome its own contract gives; every one of them first draws a
        non-empty container, which fails when there is none. Whatever happens the pool
        of indices is kept; a move that evaluates keeps every score current and
        total − Σ scores fixed, and a rejected one changes nothing. */
    method Transit(m: BinMove, temperature: real) returns (r: Result<bool>)
      requires Valid() && Distinct(blocks) && MoveFits(m)
      modifies this, blocks
      ensures Lists() && Pool(assignment) == old(Pool(assignment))
      ensures r.Ok? ==> Valid() && totalScore - Sum(assignedScores) == old(totalScore - Sum(assignedScores))
      ensures r.Ok? && !r.value ==> unchanged(`assignment, `assignedScores, `assignedCorners, `totalScore)
                                    && SolidsOf(blocks) == old(SolidsOf(blocks))
      ensures !old(Drawable()) ==> r == Err(EmptyDraw) && SolidsOf(blocks) == old(SolidsOf(blocks))
                                   && unchanged(`assignment, `assignedScores, `assignedCorners, `totalScore)
      ensures old(Drawable()) && m.rnd < 1.0 / 3.0 ==>
                var ci := m.swapContainer;
                var swapped := SwapIn(old(assignment), ci, m.swap1, m.swap2);
                AllIn(swapped, |blocks|) &&
                var e := evaluate(InOrder(old(SolidsOf(blocks)), swapped[ci]), request.containers[ci]);
                && SolidsOf(blocks) == old(SolidsOf(blocks))
                && (e.Err? ==> r == Err(e.error) && assignment == swapped
                               && unchanged(`assignedScores, `assignedCorners, `totalScore))
                && (e.Ok? ==>
                      && r.Ok? && (r.value <==> Accept(m.logRnd, temperature, e.value.0 - old(assignedScores[ci])))
                      && (r.value ==> && assignment == swapped
                                      && assignedScores == old(assignedScores)[ci := e.value.0]
                                      && assignedCorners == old(assignedCorners)[ci := e.value.1]
                                      && totalScore == old(totalScore) + (e.value.0 - old(assignedScores[ci]))))
      ensures old(Drawable()) && 1.0 / 3.0 <= m.rnd < 2.0 / 3.0 ==>
                var ci, b := m.rotateContainer, m.rotateBlock;
                var axis := blocks[b].rotatableAxes[m.pick];
                0 <= axis < 3 &&
                var rotated := RotateAt(old(SolidsOf(blocks)), b, axis);
                var e := evaluate(InOrder(rotated, assignment[ci]), request.containers[ci]);
                && unchanged(`assignment)
                && (e.Err? ==> r == Err(e.error) && SolidsOf(blocks) == rotated
                               && unchanged(`assignedScores, `assignedCorners, `totalScore))
                && (e.Ok? ==>
                      && r.Ok? && (r.value <==> Accept(m.logRnd, temperature, e.value.0 - old(assignedScores[ci])))
                      && (r.value ==> && SolidsOf(blocks) == rotated
                                      && assignedScores == old(assignedScores)[ci := e.value.0]
                                      && assignedCorners == old(assignedCorners)[ci := e.value.1]
                                      && totalScore == old(totalScore) + (e.value.0 - old(assignedScores[ci]))))
      ensures old(Drawable()) && 2.0 / 3.0 <= m.rnd ==>
                var c1, c2 := m.from, m.to;
                var s := Shifted(old(assignment), c1, c2, m.fromPos, m.toPos);
                AllIn(s, |blocks|) &&
                var e1 := evaluate(InOrder(old(SolidsOf(blocks)), s[c1]), request.containers[c1]);
                var e2 := evaluate(InOrder(old(SolidsOf(blocks)), s[c2]), request.containers[c2]);
                && SolidsOf(blocks) == old(SolidsOf(blocks))
                && (e1.Err? ==> r == Err(e1.error) && assignment == s
                                && unchanged(`assignedScores, `assignedCorners, `totalScore))
                && (e1.Ok? && e2.Err? ==> r == Err(e2.error) && assignment == s
                                          && unchanged(`assignedScores, `assignedCorners, `totalScore))
                && (e1.Ok? && e2.Ok? ==>
                      var diff := ShiftDiff(c1, c2, old(assignedScores[c1]), old(assignedScores[c2]), e1.value.0, e2.value.0);
                      && r.Ok? && (r.value <==> Accept(m.logRnd, temperature, diff))
                      && (r.value ==> && assignment == s
                                      && assignedScores == old(assignedScores)[c1 := e1.value.0][c2 := e2.value.0]
                                      && assignedCorners == old(assignedCorners)[c1 := e1.value.1][c2 := e2.value.1]
                                      && totalScore == old(totalScore) + diff))
    {
      if !Drawable() {
        return Err(EmptyDraw);
      }
      if m.rnd < 1.0 / 3.0 {
        r := Swap(m.swapContainer, m.swap1, m.swap2, m.logRnd, temperature);
      } else if m.rnd < 2.0 / 3.0 {
        r := Rotate(m.rotateContainer, m.rotateBlock, m.pick, m.logRnd, temperature);
      } else {
        r := Shift(m.from, m.to, m.fromPos, m.toPos, m.logRnd, temperature);
      }
    }

    /** Under Valid each container has one corner per listed block. */
    lemma CornersAlign(c: int)
      requires Valid() && 0 <= c < |assignment|
      ensures |assignedCorners[c]| == |assignment[c]|
    {
      assert evaluate(Listed(c), request.containers[c]) == Ok((assignedScores[c], assignedCorners[c]));
    }

    /** `response`: each listed block gets its container's index and its corner,
        every other block -1 and (INF, INF, INF). */
    method Response() returns (indexes: seq<int>, corners: seq<Corner>)
      requires Valid()
      ensures |indexes| == |blocks| && |corners| == |blocks|
      ensures forall c, i :: 0 <= c < |assignment| && 0 <= i < |assignment[c]| ==>
                indexes[assignment[c][i]] == c && corners[assignment[c][i]] == assignedCorners[c][i]
      ensures forall b :: 0 <= b < |blocks| && b !in pool ==> indexes[b] == -1 && corners[b] == Corner(INF, INF, INF)
    {
      forall c | 0 <= c < |assignment| ensures |assignedCorners[c]| == |assignment[c]| {
        CornersAlign(c);
      }
      indexes, corners := Responses(|blocks|, assignment, assignedCorners);
    }
  }
}
