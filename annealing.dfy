/** The simulated-annealing drivers of `src/solver.py`. `StripPackingSolver`,
    `BinPackingSolver` and `BinPackingSolver2` share their state and their moves
    and differ only in the evaluator, so one class with a `kind` stands for all
    three. The random generator is an oracle: the chosen indices, the rotation
    pick and log(rnd) are inputs. The placement engine is the `place` the solver
    is built with (`Placement.Engine` in the source). */
module Annealing {
  import opened Failures
  import opened Geometry
  import opened Placement
  import opened Sorting
  import opened Evaluators

  datatype Kind = Strip | Sequential | FirstFit

  /** The corners a solver reports: per block (strip), per run of the order
      (sequential containers), per position of the order (first fit). */
  datatype Layout =
    | ByBlock(corners: seq<Corner>)
    | ByRun(runs: seq<Run>)
    | ByPosition(placements: seq<(nat, Corner)>)

  /** `__calc_score_and_corners` of each solver. The sequential solver divides by the
      container's volume. */
  function Evaluation(place: Placer, kind: Kind, solids: seq<Solid>, order: seq<int>, container: Shape): Result<(real, Layout)>
    requires OrderIn(order, |solids|)
  {
    match kind
    case Strip =>
      var e :- StripScore(place, solids, order, container);
      Ok((e.0, ByBlock(e.1)))
    case Sequential =>
      var e :- SeqScore(place, solids, order, container, Some(container.Volume()));
      Ok((e.0, ByRun(e.1)))
    case FirstFit =>
      var e :- FirstFitScore(place, solids, order, container);
      Ok((e.0, ByPosition(e.1)))
  }

  method Evaluate(place: Placer, kind: Kind, solids: seq<Solid>, order: seq<int>, container: Shape) returns (r: Result<(real, Layout)>)
    requires OrderIn(order, |solids|)
    ensures r == Evaluation(place, kind, solids, order, container)
  {
    match kind
    case Strip =>
      var e := EvalStrip(place, solids, order, container);
      r := if e.Err? then Err(e.error) else Ok((e.value.0, ByBlock(e.value.1)));
    case Sequential =>
      var e := EvalSequential(place, solids, order, container, Some(container.Volume()));
      r := if e.Err? then Err(e.error) else Ok((e.value.0, ByRun(e.value.1)));
    case FirstFit =>
      var e := EvalFirstFit(place, solids, order, container);
      r := if e.Err? then Err(e.error) else Ok((e.value.0, ByPosition(e.value.1)));
  }

  /** A score function over (shapes, order), as each solver's annealing moves see it. */
  type Evaluator = (seq<Solid>, seq<int>) --> Result<(real, Layout)>

  function EvaluatorOf(place: Placer, kind: Kind, container: Shape): (f: Evaluator)
    ensures forall s, o :: OrderIn(o, |s|) ==> f.requires(s, o) && f(s, o) == Evaluation(place, kind, s, o, container)
  {
    (s: seq<Solid>, o: seq<int>) requires OrderIn(o, |s|) => Evaluation(place, kind, s, o, container)
  }

  // ---- the initial order ----

  /** `(stackable, volume)` of a is at least that of b, as Python orders tuples (False < True). */
  predicate KeyGe(a: Solid, b: Solid) {
    (a.stackable && !b.stackable) || (a.stackable == b.stackable && a.shape.Volume() >= b.shape.Volume())
  }

  function Enumerate(solids: seq<Solid>): (r: seq<(int, Solid)>)
    ensures |r| == |solids| && forall i :: 0 <= i < |r| ==> r[i] == (i, solids[i])
  {
    seq(|solids|, i requires 0 <= i < |solids| => (i, solids[i]))
  }

  function ByKeyDescending(): ((int, Solid), (int, Solid)) -> bool {
    (a: (int, Solid), b: (int, Solid)) => KeyGe(a.1, b.1)
  }

  function Indices(s: seq<(int, Solid)>): (r: seq<int>)
    ensures |r| == |s| && forall i :: 0 <= i < |s| ==> r[i] == s[i].0
  {
    seq(|s|, i requires 0 <= i < |s| => s[i].0)
  }

  lemma KeyGeIsTotalPreorder()
    ensures TotalPreorder(ByKeyDescending())
  {
  }

  /** Sorting the enumerated blocks by key, largest first, leaves a permutation of
      the indices in which keys never increase, and blocks with equal keys keep
      their input order, since the sort is stable. */
  lemma SortedIndices(solids: seq<Solid>)
    ensures var order := Indices(Sort(Enumerate(solids), ByKeyDescending()));
            && IsPermutation(order, |solids|)
            && (forall i, j :: 0 <= i < j < |solids| ==> KeyGe(solids[order[i]], solids[order[j]]))
            && (forall i, j ::
                  (0 <= i < j < |solids| && KeyGe(solids[order[i]], solids[order[j]]) && KeyGe(solids[order[j]], solids[order[i]]))
                  ==> order[i] < order[j])
  {
    var e := Enumerate(solids);
    var s := Sort(e, ByKeyDescending());
    SortedEntries(solids);
    SortedEntriesDistinct(solids);
    KeyGeIsTotalPreorder();
    SortSorted(e, ByKeyDescending());
    forall i, j | 0 <= i < j < |s| ensures KeyGe(solids[s[i].0], solids[s[j].0]) {
      assert ByKeyDescending()(s[i], s[j]);
    }
    var tie := (a: (int, Solid), b: (int, Solid)) => a.0 <= b.0;
    SortTiesOrdered(e, ByKeyDescending(), tie);
    forall i, j | 0 <= i < j < |s| && KeyGe(solids[s[i].0], solids[s[j].0]) && KeyGe(solids[s[j].0], solids[s[i].0])
      ensures s[i].0 < s[j].0
    {
      assert ByKeyDescending()(s[i], s[j]) && ByKeyDescending()(s[j], s[i]);
      assert tie(s[i], s[j]);
    }
  }

  /** Every sorted entry is some (index, solid) pair of the input. */
  lemma SortedEntries(solids: seq<Solid>)
    ensures var s := Sort(Enumerate(solids), ByKeyDescending());
            forall i :: 0 <= i < |s| ==> 0 <= s[i].0 < |solids| && s[i] == (s[i].0, solids[s[i].0])
  {
    var e := Enumerate(solids);
    var s := Sort(e, ByKeyDescending());
    forall i | 0 <= i < |s| ensures 0 <= s[i].0 < |solids| && s[i] == (s[i].0, solids[s[i].0]) {
      assert s[i] in multiset(e);
      var k :| 0 <= k < |e| && e[k] == s[i];
    }
  }

  /** No index is sorted into two positions, since the input lists each once. */
  lemma SortedEntriesDistinct(solids: seq<Solid>)
    ensures var s := Sort(Enumerate(solids), ByKeyDescending());
            forall i, j :: 0 <= i < j < |s| ==> s[i].0 != s[j].0
  {
    var e := Enumerate(solids);
    var s := Sort(e, ByKeyDescending());
    SortedEntries(solids);
    forall i, j | 0 <= i < j < |s| ensures s[i].0 != s[j].0 {
      if s[i].0 == s[j].0 {
        assert s[i] == (s[i].0, solids[s[i].0]) && s[j] == (s[j].0, solids[s[j].0]);
        assert s[i] == s[j];
        CountTwice(s, i, j);
        CountDistinct(e, s[i]);
      }
    }
  }

  /** `__initialized_order` of the strip and first-fit solvers: block indices sorted by
      `(stackable, volume)`, largest first, by a stable sort. */
  function InitialOrder(solids: seq<Solid>): (order: seq<int>)
    ensures IsPermutation(order, |solids|)
    ensures forall i, j :: 0 <= i < j < |solids| ==> KeyGe(solids[order[i]], solids[order[j]])
    ensures forall i, j ::
              (0 <= i < j < |solids| && KeyGe(solids[order[i]], solids[order[j]]) && KeyGe(solids[order[j]], solids[order[i]]))
              ==> order[i] < order[j]
  {
    SortedIndices(solids);
    Indices(Sort(Enumerate(solids), ByKeyDescending()))
  }

  // ---- moves ----

  /** Python's `a[i], a[j] = a[j], a[i]`. */
  function Swapped(order: seq<int>, i: int, j: int): (r: seq<int>)
    requires 0 <= i < |order| && 0 <= j < |order|
    ensures |r| == |order|
  {
    order[i := order[j]][j := order[i]]
  }

  /** A swap keeps a permutation, and swapping the same two positions again restores it. */
  lemma SwapOrdered(s: seq<int>, lo: int, hi: int)
    requires 0 <= lo < hi < |s|
    ensures multiset(Swapped(s, lo, hi)) == multiset(s)
  {
    var a, b, c := s[..lo], s[lo + 1..hi], s[hi + 1..];
    assert s == a + [s[lo]] + b + [s[hi]] + c;
    assert Swapped(s, lo, hi) == a + [s[hi]] + b + [s[lo]] + c;
  }

  /** A swap only reorders: the same values, as often as before. */
  lemma SwappedKeepsMultiset(s: seq<int>, i: int, j: int)
    requires 0 <= i < |s| && 0 <= j < |s|
    ensures multiset(Swapped(s, i, j)) == multiset(s)
  {
    if i < j {
      SwapOrdered(s, i, j);
    } else if j < i {
      assert Swapped(s, i, j) == Swapped(s, j, i);
      SwapOrdered(s, j, i);
    }
  }

  /** Swapping the same two positions twice restores the sequence. */
  lemma SwappedTwice(s: seq<int>, i: int, j: int)
    requires 0 <= i < |s| && 0 <= j < |s|
    ensures Swapped(Swapped(s, i, j), i, j) == s
  {
  }

  lemma SwappedSpec(order: seq<int>, n: nat, i: int, j: int)
    requires IsPermutation(order, n) && 0 <= i < n && 0 <= j < n
    ensures IsPermutation(Swapped(order, i, j), n)
    ensures Swapped(Swapped(order, i, j), i, j) == order
    ensures multiset(Swapped(order, i, j)) == multiset(order)
  {
    var r := Swapped(order, i, j);
    forall a, b | 0 <= a < b < n ensures r[a] != r[b] {
      var a' := if a == i then j else if a == j then i else a;
      var b' := if b == i then j else if b == j then i else b;
      assert r[a] == order[a'] && r[b] == order[b'];
    }
    SwappedKeepsMultiset(order, i, j);
    SwappedTwice(order, i, j);
  }

  /** The Metropolis test with log(rnd) given: accept when log(rnd)·T <= −diff. */
  predicate Accept(logRnd: real, temperature: real, diff: real) {
    logRnd * temperature <= -diff
  }

  /** A move that does not make the score worse is always accepted, since log(rnd) <= 0. */
  lemma DownhillAccepted(logRnd: real, temperature: real, diff: real)
    requires logRnd <= 0.0 && temperature >= 0.0 && diff <= 0.0
    ensures Accept(logRnd, temperature, diff)
  {
    assert logRnd * temperature <= 0.0 by {
      assert (-logRnd) * temperature >= 0.0;
    }
  }

  /** The solids with block idx rotated about `axis`. */
  function RotateAt(solids: seq<Solid>, idx: int, axis: int): (r: seq<Solid>)
    requires 0 <= idx < |solids| && 0 <= axis < 3
    ensures |r| == |solids|
  {
    solids[idx := Solid(solids[idx].shape.Rotated(axis), solids[idx].stackable)]
  }

  lemma RotateAtTwice(solids: seq<Solid>, idx: int, axis: int)
    requires 0 <= idx < |solids| && 0 <= axis < 3
    ensures RotateAt(RotateAt(solids, idx, axis), idx, axis) == solids
  {
    RotatedTwice(solids[idx].shape, axis);
  }

  /** Rotate block idx of a list in place; the other blocks keep their shapes. */
  method TurnBlock(bs: seq<Block>, idx: int, axis: int)
    requires Distinct(bs) && 0 <= idx < |bs| && axis in bs[idx].rotatableAxes
    modifies bs[idx]
    ensures 0 <= axis < 3 && SolidsOf(bs) == RotateAt(old(SolidsOf(bs)), idx, axis)
  {
    bs[idx].Rotate(axis);
  }

  /** One transition's random draws: swap or rotate, the two swap positions, the
      rotated block, its axis pick and log(rnd) for the Metropolis test. */
  datatype Move = Move(swap: bool, idx1: int, idx2: int, idx: int, pick: nat, logRnd: real)

  /** `[block.copy() for block in blocks]`. */
  method CopyAll(bs: seq<Block>) returns (copies: seq<Block>)
    ensures |copies| == |bs|
    ensures forall i :: 0 <= i < |bs| ==> fresh(copies[i])
    ensures forall i, j :: 0 <= i < j < |bs| ==> copies[i] != copies[j]
    ensures SolidsOf(copies) == SolidsOf(bs)
    ensures forall i :: 0 <= i < |bs| ==> copies[i].rotatableAxes == bs[i].rotatableAxes
  {
    copies := [];
    for k := 0 to |bs|
      invariant |copies| == k
      invariant forall i :: 0 <= i < k ==> fresh(copies[i])
      invariant forall i, j :: 0 <= i < j < k ==> copies[i] != copies[j]
      invariant forall i :: 0 <= i < k ==> copies[i].shape == bs[i].shape && copies[i].stackable == bs[i].stackable
      invariant forall i :: 0 <= i < k ==> copies[i].rotatableAxes == bs[i].rotatableAxes
    {
      var b := bs[k].Copy();
      copies := copies + [b];
    }
  }

  class Annealer {
    const kind: Kind
    /** The kind's score function with the engine and the container fixed. */
    const evaluate: Evaluator
    const request: Request
    const blocks: seq<Block>
    var packingOrder: seq<int>
    var score: real
    var corners: Layout
    var optScore: real
    var optBlocks: seq<Block>
    var optCorners: Layout
    /** Kept by the two bin-packing solvers only. */
    var optPackingOrder: seq<int>
    /** The order the best layout was found with, for every kind. */
    ghost var optOrder: seq<int>

    /** The best score and corners are those of the snapshot blocks and the order
        they were found with, and the evaluator accepts every order in range. */
    ghost predicate BestKept()
      reads this, blocks, optBlocks
    {
      && |blocks| == request.NBlocks()
      && |optBlocks| == |blocks|
      && Apart(blocks, optBlocks)
      && IsPermutation(optOrder, |blocks|)
      && (kind != Strip ==> optPackingOrder == optOrder)
      && (forall s, o :: OrderIn(o, |s|) ==> evaluate.requires(s, o))
      && evaluate(SolidsOf(optBlocks), optOrder) == Ok((optScore, optCorners))
    }

    /** Also the current score and corners are those of the current order and shapes. */
    ghost predicate Consistent()
      reads this, blocks, optBlocks
    {
      && BestKept()
      && IsPermutation(packingOrder, |blocks|)
      && evaluate(SolidsOf(blocks), packingOrder) == Ok((score, corners))
    }

    /** Between transitions the best score is also never worse than the current one. */
    ghost predicate Valid()
      reads this, blocks, optBlocks
    {
      Consistent() && optScore <= score
    }

    constructor Init(kind: Kind, evaluate: Evaluator, request: Request, blocks: seq<Block>, order: seq<int>,
                     score: real, corners: Layout, optBlocks: seq<Block>)
      ensures this.kind == kind && this.evaluate == evaluate && this.request == request && this.blocks == blocks
      ensures packingOrder == order && this.score == score && this.corners == corners
      ensures optScore == score && this.optBlocks == optBlocks && optCorners == corners
      ensures optPackingOrder == order && optOrder == order
    {
      this.kind := kind;
      this.evaluate := evaluate;
      this.request := request;
      this.blocks := blocks;
      packingOrder := order;
      this.score := score;
      this.corners := corners;
      optScore := score;
      this.optBlocks := optBlocks;
      optCorners := corners;
      optPackingOrder := order;
      optOrder := order;
    }

    /** `__init__`: copy the request's blocks, order them (sorted, or the shuffled
        permutation for the sequential solver), evaluate, and take that as the best. */
    static method Create(place: Placer, kind: Kind, request: Request, shuffled: seq<int>) returns (r: Result<Annealer>)
      requires kind == Sequential ==> IsPermutation(shuffled, |request.blocks|)
      ensures var order := if kind == Sequential then shuffled else InitialOrder(SolidsOf(request.blocks));
              var e := Evaluation(place, kind, SolidsOf(request.blocks), order, request.containerShape);
              && (e.Err? <==> r.Err?)
              && (r.Ok? ==>
                    var a := r.value;
                    && fresh(a) && (forall i :: 0 <= i < |a.blocks| ==> fresh(a.blocks[i]))
                    && a.Valid() && Distinct(a.blocks) && a.kind == kind && a.request == request
                    && a.evaluate == EvaluatorOf(place, kind, request.containerShape)
                    && SolidsOf(a.blocks) == SolidsOf(request.blocks)
                    && a.packingOrder == order && a.score == a.optScore == e.value.0
                    && a.corners == a.optCorners == e.value.1 && a.optOrder == order && a.optPackingOrder == order
                    && SolidsOf(a.optBlocks) == SolidsOf(request.blocks))
    {
      var copies := CopyAll(request.blocks);
      var order := shuffled;
      if kind != Sequential {
        order := InitialOrder(SolidsOf(copies));
      }
      r := Start(place, kind, request, copies, order);
    }

    /** Evaluating the first order of the given blocks and, when that succeeds,
        the solver that starts from it. */
    static method Start(place: Placer, kind: Kind, request: Request, blocks: seq<Block>, order: seq<int>)
      returns (r: Result<Annealer>)
      requires |blocks| == request.NBlocks() && IsPermutation(order, |blocks|)
      ensures var e := Evaluation(place, kind, SolidsOf(blocks), order, request.containerShape);
              && (e.Err? <==> r.Err?)
              && (r.Ok? ==>
                    var a := r.value;
                    && fresh(a) && a.Valid() && a.kind == kind && a.request == request && a.blocks == blocks
                    && a.evaluate == EvaluatorOf(place, kind, request.containerShape)
                    && a.packingOrder == order && a.score == a.optScore == e.value.0
                    && a.corners == a.optCorners == e.value.1 && a.optOrder == order && a.optPackingOrder == order
                    && SolidsOf(a.optBlocks) == SolidsOf(blocks))
    {
      var e := Evaluate(place, kind, SolidsOf(blocks), order, request.containerShape);
      if e.Err? {
        return Err(e.error);
      }
      var a := Build(kind, EvaluatorOf(place, kind, request.containerShape), request, blocks, order, e.value.0, e.value.1);
      r := Ok(a);
    }

    /** A solver over given blocks whose order evaluates to the given score and
        corners, with a snapshot of those blocks as the best. */
    static method Build(kind: Kind, evaluate: Evaluator, request: Request, blocks: seq<Block>, order: seq<int>,
                        score: real, corners: Layout) returns (a: Annealer)
      requires |blocks| == request.NBlocks() && IsPermutation(order, |blocks|)
      requires forall s, o :: OrderIn(o, |s|) ==> evaluate.requires(s, o)
      requires evaluate(SolidsOf(blocks), order) == Ok((score, corners))
      ensures fresh(a) && a.Valid()
      ensures a.kind == kind && a.evaluate == evaluate && a.request == request && a.blocks == blocks
      ensures a.packingOrder == order && a.score == a.optScore == score
      ensures a.corners == a.optCorners == corners && a.optOrder == order && a.optPackingOrder == order
      ensures SolidsOf(a.optBlocks) == SolidsOf(blocks)
    {
      var optCopies := CopyAll(blocks);
      assert Apart(blocks, optCopies);
      a := new Annealer.Init(kind, evaluate, request, blocks, order, score, corners, optCopies);
    }

    /** `__swap`: exchange two positions of the order, re-evaluate, keep or roll back. */
    method Swap(idx1: int, idx2: int, logRnd: real, temperature: real) returns (r: Result<bool>)
      requires Consistent() && 0 <= idx1 < |blocks| && 0 <= idx2 < |blocks|
      modifies this
      ensures unchanged(`optScore, `optBlocks, `optCorners, `optPackingOrder, `optOrder)
      ensures var swapped := Swapped(old(packingOrder), idx1, idx2);
              var e := evaluate(SolidsOf(blocks), swapped);
              && IsPermutation(packingOrder, |blocks|)
              && (e.Err? ==> r == Err(e.error) && packingOrder == swapped && unchanged(`score, `corners))
              && (e.Ok? ==>
                    && r.Ok? && Consistent()
                    && (r.value <==> Accept(logRnd, temperature, e.value.0 - old(score)))
                    && (r.value ==> packingOrder == swapped && score == e.value.0 && corners == e.value.1)
                    && (!r.value ==> packingOrder == old(packingOrder) && unchanged(`score, `corners)))
    {
      SwappedSpec(packingOrder, |blocks|, idx1, idx2);
      ghost var solids, best := SolidsOf(blocks), SolidsOf(optBlocks);
      packingOrder := Swapped(packingOrder, idx1, idx2);
      assert SolidsOf(blocks) == solids && SolidsOf(optBlocks) == best && BestKept();
      var e := evaluate(SolidsOf(blocks), packingOrder);
      if e.Err? {
        return Err(e.error);
      }
      var diff := e.value.0 - score;
      var transit := logRnd * temperature <= -diff;
      if transit {
        Adopt(e.value.0, e.value.1);
      } else {
        packingOrder := Swapped(packingOrder, idx1, idx2);
        assert SolidsOf(blocks) == solids && SolidsOf(optBlocks) == best;
      }
      r := Ok(transit);
    }

    /** Accepting a move: the current score and corners become the evaluator's verdict. */
    method Adopt(s: real, cs: Layout)
      requires BestKept() && IsPermutation(packingOrder, |blocks|)
      requires evaluate(SolidsOf(blocks), packingOrder) == Ok((s, cs))
      modifies this
      ensures Consistent() && score == s && corners == cs
      ensures unchanged(`packingOrder, `optScore, `optBlocks, `optCorners, `optPackingOrder, `optOrder)
    {
      ghost var solids, best := SolidsOf(blocks), SolidsOf(optBlocks);
      score, corners := s, cs;
      assert SolidsOf(blocks) == solids && SolidsOf(optBlocks) == best;
    }

    /** `__rotate`: rotate one block about its picked axis, re-evaluate, keep or
        rotate it back about the same axis. */
    method Rotate(idx: int, pick: nat, logRnd: real, temperature: real) returns (r: Result<bool>)
      requires Consistent() && Distinct(blocks) && 0 <= idx < |blocks| && pick < |blocks[idx].rotatableAxes|
      modifies this, blocks[idx]
      ensures unchanged(`packingOrder, `optScore, `optBlocks, `optCorners, `optPackingOrder, `optOrder)
      ensures var axis := blocks[idx].rotatableAxes[pick];
              var rotated := RotateAt(old(SolidsOf(blocks)), idx, axis);
              var e := evaluate(rotated, packingOrder);
              && 0 <= axis < 3
              && (e.Err? ==> r == Err(e.error) && SolidsOf(blocks) == rotated && unchanged(`score, `corners))
              && (e.Ok? ==>
                    && r.Ok? && Consistent()
                    && (r.value <==> Accept(logRnd, temperature, e.value.0 - old(score)))
                    && (r.value ==> SolidsOf(blocks) == rotated && score == e.value.0 && corners == e.value.1)
                    && (!r.value ==> SolidsOf(blocks) == old(SolidsOf(blocks)) && unchanged(`score, `corners)))
    {
      ghost var before, best := SolidsOf(blocks), SolidsOf(optBlocks);
      var axis := blocks[idx].ChoiceRotateAxis(pick);
      TurnBlock(blocks, idx, axis);
      assert SolidsOf(optBlocks) == best;
      var e := evaluate(SolidsOf(blocks), packingOrder);
      if e.Err? {
        return Err(e.error);
      }
      var diff := e.value.0 - score;
      var transit := logRnd * temperature <= -diff;
      if transit {
        corners := e.value.1;
        score := e.value.0;
      } else {
        TurnBlock(blocks, idx, axis);
        RotateAtTwice(before, idx, axis);
        assert SolidsOf(optBlocks) == best;
      }
      r := Ok(transit);
    }

    /** The draws lie in range; with no blocks there is nothing to draw from and
        any draws fit, since the move fails before using them. */
    predicate MoveFits(m: Move) {
      |blocks| > 0 ==>
        && 0 <= m.idx1 < |blocks| && 0 <= m.idx2 < |blocks| && 0 <= m.idx < |blocks|
        && m.pick < |blocks[m.idx].rotatableAxes|
    }

    /** The move half of `transit`: a swap (always, when rotation is not allowed) or a
        rotation; either draws from `range(n_blocks)`, which fails when it is empty. */
    method Step(m: Move, allowRotate: bool, temperature: real) returns (r: Result<bool>)
      requires Consistent() && Distinct(blocks) && MoveFits(m)
      modifies this, blocks
      ensures unchanged(`optScore, `optBlocks, `optCorners, `optPackingOrder, `optOrder)
      ensures r.Ok? ==> Consistent()
      ensures IsPermutation(packingOrder, |blocks|)
      ensures (m.swap || !allowRotate) ==> forall i :: 0 <= i < |blocks| ==> blocks[i].shape == old(blocks[i].shape)
      ensures forall i :: 0 <= i < |blocks| && i != m.idx ==> blocks[i].shape == old(blocks[i].shape)
      ensures |blocks| == 0 ==> r == Err(EmptyDraw) && unchanged(`packingOrder, `score, `corners)
      ensures |blocks| > 0 && (m.swap || !allowRotate) ==>
                var swapped := Swapped(old(packingOrder), m.idx1, m.idx2);
                var e := evaluate(SolidsOf(blocks), swapped);
                && SolidsOf(blocks) == old(SolidsOf(blocks))
                && (e.Err? ==> r == Err(e.error) && packingOrder == swapped && unchanged(`score, `corners))
                && (e.Ok? ==>
                      && r.Ok? && (r.value <==> Accept(m.logRnd, temperature, e.value.0 - old(score)))
                      && (r.value ==> packingOrder == swapped && score == e.value.0 && corners == e.value.1)
                      && (!r.value ==> packingOrder == old(packingOrder) && unchanged(`score, `corners)))
      ensures |blocks| > 0 && !(m.swap || !allowRotate) ==>
                var axis := blocks[m.idx].rotatableAxes[m.pick];
                var rotated := RotateAt(old(SolidsOf(blocks)), m.idx, axis);
                var e := evaluate(rotated, packingOrder);
                && 0 <= axis < 3 && unchanged(`packingOrder)
                && (e.Err? ==> r == Err(e.error) && SolidsOf(blocks) == rotated && unchanged(`score, `corners))
                && (e.Ok? ==>
                      && r.Ok? && (r.value <==> Accept(m.logRnd, temperature, e.value.0 - old(score)))
                      && (r.value ==> SolidsOf(blocks) == rotated && score == e.value.0 && corners == e.value.1)
                      && (!r.value ==> SolidsOf(blocks) == old(SolidsOf(blocks)) && unchanged(`score, `corners)))
    {
      if |blocks| == 0 {
        return Err(EmptyDraw);
      }
      if m.swap || !allowRotate {
        r := Swap(m.idx1, m.idx2, m.logRnd, temperature);
      } else {
        r := Rotate(m.idx, m.pick, m.logRnd, temperature);
      }
    }

    /** `transit`: one move; an accepted move that ties or beats the best score
        becomes the new best. The order, shapes, score and corners change as the
        move's own contract says. */
    method Transit(m: Move, allowRotate: bool, temperature: real) returns (r: Result<bool>)
      requires Valid() && Distinct(blocks) && MoveFits(m)
      modifies this, blocks
      ensures r.Ok? ==> Valid()
      ensures r.Ok? ==> optScore <= old(optScore)
      ensures var improved := r.Ok? && r.value && score <= old(optScore);
              && (improved ==> optScore == score && optCorners == corners && optOrder == packingOrder
                                 && SolidsOf(optBlocks) == SolidsOf(blocks)
                                 && (kind != Strip ==> optPackingOrder == packingOrder))
              && (!improved ==> unchanged(`optScore, `optBlocks, `optCorners, `optPackingOrder, `optOrder))
      ensures IsPermutation(packingOrder, |blocks|)
      ensures (m.swap || !allowRotate) ==> forall i :: 0 <= i < |blocks| ==> blocks[i].shape == old(blocks[i].shape)
      ensures forall i :: 0 <= i < |blocks| && i != m.idx ==> blocks[i].shape == old(blocks[i].shape)
      ensures |blocks| == 0 ==> r == Err(EmptyDraw) && unchanged(`packingOrder, `score, `corners)
      ensures |blocks| > 0 && (m.swap || !allowRotate) ==>
                var swapped := Swapped(old(packingOrder), m.idx1, m.idx2);
                var e := evaluate(SolidsOf(blocks), swapped);
                && SolidsOf(blocks) == old(SolidsOf(blocks))
                && (e.Err? ==> r == Err(e.error) && packingOrder == swapped && unchanged(`score, `corners))
                && (e.Ok? ==>
                      && r.Ok? && (r.value <==> Accept(m.logRnd, temperature, e.value.0 - old(score)))
                      && (r.value ==> packingOrder == swapped && score == e.value.0 && corners == e.value.1)
                      && (!r.value ==> packingOrder == old(packingOrder) && unchanged(`score, `corners)))
      ensures |blocks| > 0 && !(m.swap || !allowRotate) ==>
                var axis := blocks[m.idx].rotatableAxes[m.pick];
                var rotated := RotateAt(old(SolidsOf(blocks)), m.idx, axis);
                var e := evaluate(rotated, packingOrder);
                && 0 <= axis < 3 && unchanged(`packingOrder)
                && (e.Err? ==> r == Err(e.error) && SolidsOf(blocks) == rotated && unchanged(`score, `corners))
                && (e.Ok? ==>
                      && r.Ok? && (r.value <==> Accept(m.logRnd, temperature, e.value.0 - old(score)))
                      && (r.value ==> SolidsOf(blocks) == rotated && score == e.value.0 && corners == e.value.1)
                      && (!r.value ==> SolidsOf(blocks) == old(SolidsOf(blocks)) && unchanged(`score, `corners)))
    {
      r := Step(m, allowRotate, temperature);
      if r.Ok? && r.value && score <= optScore {
        ghost var solids := SolidsOf(blocks);
        RecordBest();
        assert SolidsOf(blocks) == solids;
      }
    }

    /** Snapshot the current state as the best one. */
    method RecordBest()
      requires Consistent()
      modifies this
      ensures Valid()
      ensures unchanged(`packingOrder, `score, `corners)
      ensures optScore == score && optCorners == corners && optOrder == packingOrder
      ensures SolidsOf(optBlocks) == SolidsOf(blocks) && forall i :: 0 <= i < |optBlocks| ==> fresh(optBlocks[i])
      ensures kind != Strip ==> optPackingOrder == packingOrder
      ensures kind == Strip ==> unchanged(`optPackingOrder)
    {
      var copies := CopyAll(blocks);
      assert Apart(blocks, copies);
      Keep(copies);
    }

    /** The assignments of `RecordBest`, once the copies are made. */
    method Keep(copies: seq<Block>)
      requires |blocks| == request.NBlocks() && IsPermutation(packingOrder, |blocks|)
      requires (forall s, o :: OrderIn(o, |s|) ==> evaluate.requires(s, o))
      requires evaluate(SolidsOf(blocks), packingOrder) == Ok((score, corners))
      requires |copies| == |blocks| && Apart(blocks, copies) && SolidsOf(copies) == SolidsOf(blocks)
      modifies this
      ensures Valid()
      ensures unchanged(`packingOrder, `score, `corners)
      ensures optScore == score && optCorners == corners && optOrder == packingOrder && optBlocks == copies
      ensures optPackingOrder == if kind != Strip then packingOrder else old(optPackingOrder)
    {
      ghost var solids := SolidsOf(blocks);
      optScore, optBlocks, optOrder, optCorners, optPackingOrder :=
        score, copies, packingOrder, corners, if kind != Strip then packingOrder else optPackingOrder;
      assert SolidsOf(blocks) == solids && SolidsOf(optBlocks) == solids;
    }

    /** `StripPackingSolver.solve`: at most maxIter transitions, stopping once the
        best layout fits under the container's height (at once for an empty request,
        whose best height is 0); the response pairs the current blocks with the
        best corners. */
    method Solve(maxIter: nat, allowRotate: bool, temperature: real, moves: seq<Move>)
      returns (r: Result<(seq<Block>, Layout)>, ghost steps: nat)
      requires Valid() && Distinct(blocks) && kind == Strip
      requires |moves| >= maxIter && forall i :: 0 <= i < |moves| ==> MoveFits(moves[i])
      modifies this, blocks
      ensures r.Ok? ==> && Valid() && optScore <= old(optScore) && steps <= maxIter
                         && (steps < maxIter ==> optScore <= request.containerShape.height as real)
                         && r.value == (blocks, optCorners)
      ensures old(optScore) <= request.containerShape.height as real ==> r.Ok? && steps == 0
      ensures r.Err? && |blocks| == 0 ==> r.error == EmptyDraw
    {
      var n := 0;
      while n < maxIter
        invariant n <= maxIter && Valid() && optScore <= old(optScore)
        invariant old(optScore) <= request.containerShape.height as real ==> n == 0
      {
        if optScore <= request.containerShape.height as real {
          break;
        }
        var t := Transit(moves[n], allowRotate, temperature);
        if t.Err? {
          return Err(t.error), n;
        }
        n := n + 1;
      }
      steps := n;
      r := Ok((blocks, optCorners));
    }
  }
}
