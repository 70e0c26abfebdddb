/** The three evaluators of `src/solver.py`: how a packing order is turned into a
    score and corners by placing the blocks one by one with `calc_score_and_corner`.
    Each evaluator is a method with loops, proved equal to a function; the lemmas
    state what the functions mean. Obstacles are carried as solids (shape and
    stackability), which is all the placement engine reads of them. */
module Evaluators {
  import opened Failures
  import opened Geometry
  import opened Placement

  /** Every wall is a stackable 3INF cube. */
  const WallShape: Shape := Shape(3 * INF, 3 * INF, 3 * INF)

  function Walls(k: nat): (w: seq<Solid>)
    ensures |w| == k && forall i :: 0 <= i < k ==> w[i] == Solid(WallShape, true)
  {
    seq(k, _ => Solid(WallShape, true))
  }

  /** Corners of the back, left, floor, front, right and ceiling walls around a container. */
  function WallCorners(c: Shape): (w: seq<Corner>)
    ensures |w| == 6
  {
    [Corner(-3 * INF, -INF, -INF), Corner(-INF, -3 * INF, -INF), Corner(-INF, -INF, -3 * INF),
     Corner(c.depth, -INF, -INF), Corner(-INF, c.width, -INF), Corner(-INF, -INF, c.height)]
  }

  function Max(a: int, b: int): int {
    if a >= b then a else b
  }

  predicate OrderIn(order: seq<int>, n: int) {
    forall i :: 0 <= i < |order| ==> 0 <= order[i] < n
  }

  /** `order` lists each of 0..n-1 exactly once. */
  predicate IsPermutation(order: seq<int>, n: nat) {
    && |order| == n && OrderIn(order, n)
    && forall i, j :: 0 <= i < j < n ==> order[i] != order[j]
  }

  /** The solids in packing order. */
  function InOrder(solids: seq<Solid>, order: seq<int>): (r: seq<Solid>)
    requires OrderIn(order, |solids|)
    ensures |r| == |order| && forall i :: 0 <= i < |order| ==> r[i] == solids[order[i]]
  {
    seq(|order|, i requires 0 <= i < |order| => solids[order[i]])
  }

  // ---------------------------------------------------------------------------
  // StripPackingSolver: one open-topped container, every block stacked in it.
  // ---------------------------------------------------------------------------

  /** The evaluator's loop state: obstacles and corners so far, the highest finite
      top and the number of blocks that found no stackable point. */
  datatype Pack = Pack(obstacles: seq<Solid>, corners: seq<Corner>, maxHeight: int, unstacked: nat)

  const StripWalls: nat := 5

  predicate StripShape(p: Pack, solids: seq<Solid>, order: seq<int>, k: nat)
    requires k <= |order| && OrderIn(order, |solids|)
  {
    && p.obstacles == Walls(StripWalls) + InOrder(solids, order)[..k]
    && |p.corners| == StripWalls + k
    && 0 <= p.maxHeight < INF && p.unstacked <= k
  }

  /** The state after the first k blocks of the order; the ceiling wall is left out. */
  function StripPack(place: Placer, solids: seq<Solid>, order: seq<int>, container: Shape, k: nat): (r: Result<Pack>)
    requires k <= |order| && OrderIn(order, |solids|)
    ensures r.Ok? ==> StripShape(r.value, solids, order, k)
  {
    if k == 0 then
      assert InOrder(solids, order)[..0] == [];
      Ok(Pack(Walls(StripWalls), WallCorners(container)[..StripWalls], 0, 0))
    else
      var p :- StripPack(place, solids, order, container, k - 1);
      var block := solids[order[k - 1]];
      var tc :- place(block.shape, p.obstacles, p.corners);
      assert InOrder(solids, order)[..k] == InOrder(solids, order)[..k - 1] + [block];
      Ok(Pack(p.obstacles + [block], p.corners + [tc.1],
              if tc.0 >= INF then p.maxHeight else Max(p.maxHeight, tc.0),
              if tc.0 >= INF then p.unstacked + 1 else p.unstacked))
  }

  /** Corners written back by original block index: `corners[order[idx]] = placed[idx]`. */
  function Scatter(base: seq<Corner>, placed: seq<Corner>, order: seq<int>, k: nat): (r: seq<Corner>)
    requires k <= |placed| && k <= |order| && OrderIn(order, |base|)
    ensures |r| == |base|
  {
    if k == 0 then base else Scatter(base, placed, order, k - 1)[order[k - 1] := placed[k - 1]]
  }

  function Origins(n: nat): (r: seq<Corner>)
    ensures |r| == n
  {
    seq(n, _ => Corner(0, 0, 0))
  }

  /** `StripPackingSolver.__calc_score_and_corners`: the highest finite top plus INF for
      every unstacked block, and each block's corner at its original index. */
  function StripScore(place: Placer, solids: seq<Solid>, order: seq<int>, container: Shape): Result<(real, seq<Corner>)>
    requires OrderIn(order, |solids|)
  {
    var p :- StripPack(place, solids, order, container, |order|);
    Ok(((p.maxHeight + p.unstacked * INF) as real,
        Scatter(Origins(|solids|), p.corners[StripWalls..], order, |order|)))
  }

  lemma {:induction false} StripPackErrSticks(place: Placer, solids: seq<Solid>, order: seq<int>, container: Shape, k: nat, m: nat)
    requires k <= m <= |order| && OrderIn(order, |solids|)
    requires StripPack(place, solids, order, container, k).Err?
    ensures StripPack(place, solids, order, container, m) == StripPack(place, solids, order, container, k)
    decreases m
  {
    if m > k {
      StripPackErrSticks(place, solids, order, container, k, m - 1);
    }
  }

  method EvalStrip(place: Placer, solids: seq<Solid>, order: seq<int>, container: Shape) returns (r: Result<(real, seq<Corner>)>)
    requires OrderIn(order, |solids|)
    ensures r == StripScore(place, solids, order, container)
  {
    var obstacles := Walls(StripWalls);
    var cs := WallCorners(container)[..StripWalls];
    var maxHeight, unstacked := 0, 0;
    for k := 0 to |order|
      invariant StripPack(place, solids, order, container, k) == Ok(Pack(obstacles, cs, maxHeight, unstacked))
    {
      var block := solids[order[k]];
      var res := place(block.shape, obstacles, cs);
      if res.Err? {
        StripPackErrSticks(place, solids, order, container, k + 1, |order|);
        return Err(res.error);
      }
      var top, corner := res.value.0, res.value.1;
      if top >= INF {
        unstacked := unstacked + 1;
      } else {
        maxHeight := Max(maxHeight, top);
      }
      obstacles := obstacles + [block];
      cs := cs + [corner];
    }
    var corners := Origins(|solids|);
    for k := 0 to |order|
      invariant corners == Scatter(Origins(|solids|), cs[StripWalls..], order, k)
    {
      corners := corners[order[k] := cs[k + StripWalls]];
    }
    r := Ok(((maxHeight + unstacked * INF) as real, corners));
  }

  /** With `order` a permutation, the block at position i of the order gets the corner
      placed i-th, at its own index. */
  lemma {:induction false} ScatterAt(base: seq<Corner>, placed: seq<Corner>, order: seq<int>, k: nat, i: int)
    requires k <= |placed| && k <= |order| && OrderIn(order, |base|)
    requires forall a, b :: 0 <= a < b < k ==> order[a] != order[b]
    requires 0 <= i < k
    ensures Scatter(base, placed, order, k)[order[i]] == placed[i]
  {
    if i < k - 1 {
      ScatterAt(base, placed, order, k - 1, i);
    }
  }

  /** The strip score is below INF exactly when every block was stacked, and then it
      is the highest top; each block's corner is the one it was placed at. */
  lemma StripScoreMeaning(place: Placer, solids: seq<Solid>, order: seq<int>, container: Shape)
    requires IsPermutation(order, |solids|)
    requires StripScore(place, solids, order, container).Ok?
    ensures var p := StripPack(place, solids, order, container, |order|).value;
            var (score, corners) := StripScore(place, solids, order, container).value;
            && p.obstacles == Walls(StripWalls) + InOrder(solids, order)
            && 0.0 <= score
            && (score < INF as real <==> p.unstacked == 0)
            && (p.unstacked == 0 ==> score == p.maxHeight as real)
            && forall i :: 0 <= i < |order| ==> corners[order[i]] == p.corners[StripWalls + i]
  {
    var p := StripPack(place, solids, order, container, |order|).value;
    var corners := StripScore(place, solids, order, container).value.1;
    assert InOrder(solids, order)[..|order|] == InOrder(solids, order);
    forall i | 0 <= i < |order| ensures corners[order[i]] == p.corners[StripWalls + i] {
      ScatterAt(Origins(|solids|), p.corners[StripWalls..], order, |order|, i);
    }
  }

  // ---------------------------------------------------------------------------
  // BinPackingSolver: containers filled one after another along the order.
  // ---------------------------------------------------------------------------

  /** One container's positions start..end of the order and their corners. */
  datatype Run = Run(start: int, end: int, corners: seq<Corner>)

  /** The inner loop of `__calc_top_height_and_corners_and_last_idx` from position idx
      on: stop before the first block that does not fit, or at the end of the order. */
  function FillFrom(place: Placer, solids: seq<Solid>, order: seq<int>, obstacles: seq<Solid>, cs: seq<Corner>, maxHeight: int, idx: nat)
    : (r: Result<(int, seq<Corner>, int)>)
    requires OrderIn(order, |solids|) && idx <= |order|
    decreases |order| - idx
    ensures r.Ok? ==> && idx - 1 <= r.value.2 < |order|
                      && |r.value.1| == |cs| + (r.value.2 - idx + 1)
                      && r.value.1[..|cs|] == cs
  {
    if idx == |order| then Ok((maxHeight, cs, idx - 1))
    else
      var tc :- place(solids[order[idx]].shape, obstacles, cs);
      if tc.0 >= INF then Ok((maxHeight, cs, idx - 1))
      else
        var r := FillFrom(place, solids, order, obstacles + [solids[order[idx]]], cs + [tc.1], Max(maxHeight, tc.0), idx + 1);
        assert r.Ok? ==> (cs + [tc.1]) [..|cs|] == cs;
        r
  }

  const BinWalls: nat := 6

  /** A fresh six-wall container filled from position `start`: its top, the corners of
      the blocks it took and the last position it took (start - 1 when none fit). */
  function Fill(place: Placer, solids: seq<Solid>, order: seq<int>, container: Shape, start: nat): (r: Result<(int, seq<Corner>, int)>)
    requires OrderIn(order, |solids|) && start < |order|
    ensures r.Ok? ==> start - 1 <= r.value.2 < |order| && |r.value.1| == r.value.2 - start + 1
  {
    var f :- FillFrom(place, solids, order, Walls(BinWalls), WallCorners(container), 0, start);
    Ok((f.0, f.1[BinWalls..], f.2))
  }

  /** Total volume of the blocks at positions lo..hi-1 of the order. */
  function SumVolumes(solids: seq<Solid>, order: seq<int>, lo: int, hi: int): int
    requires OrderIn(order, |solids|) && 0 <= lo <= hi <= |order|
    decreases hi - lo
  {
    if lo == hi then 0 else SumVolumes(solids, order, lo, hi - 1) + solids[order[hi - 1]].shape.Volume()
  }

  /** The packing factor of positions lo..hi-1: their volume over the container's. */
  function PackingFactor(solids: seq<Solid>, order: seq<int>, lo: int, hi: int, volume: int): real
    requires OrderIn(order, |solids|) && 0 <= lo <= hi <= |order| && volume != 0
  {
    SumVolumes(solids, order, lo, hi) as real / volume as real
  }

  /** The outer loop of `BinPackingSolver.__calc_score_and_corners` from iteration `it`,
      the next container starting at position `start`. The container volume is an
      Option: the request the source reads it from may not define one. */
  function SeqLoop(place: Placer, solids: seq<Solid>, order: seq<int>, container: Shape, volume: Option<int>,
                   it: nat, start: nat, factor: real, runs: seq<Run>): (r: Result<(real, seq<Run>)>)
    requires OrderIn(order, |solids|) && start <= |order|
    decreases |order| - it
  {
    if it >= |order| || start == |order| then Ok((factor + (it * INF) as real, runs))
    else
      var f :- Fill(place, solids, order, container, start);
      if volume.None? then Err(NoContainerVolume)
      else if volume.value == 0 then Err(DivisionByZero)
      else
        var factor' := PackingFactor(solids, order, start, f.2 + 1, volume.value);
        var runs' := runs + [Run(start, f.2, f.1)];
        if start == f.2 then Ok((factor' + ((it + 1) * INF) as real, runs'))
        else SeqLoop(place, solids, order, container, volume, it + 1, f.2 + 1, factor', runs')
  }

  function SeqScore(place: Placer, solids: seq<Solid>, order: seq<int>, container: Shape, volume: Option<int>): Result<(real, seq<Run>)>
    requires OrderIn(order, |solids|)
  {
    SeqLoop(place, solids, order, container, volume, 0, 0, 0.0, [])
  }

  method FillContainer(place: Placer, solids: seq<Solid>, order: seq<int>, container: Shape, start: nat)
    returns (r: Result<(int, seq<Corner>, int)>)
    requires OrderIn(order, |solids|) && start < |order|
    ensures r == Fill(place, solids, order, container, start)
  {
    var obstacles := Walls(BinWalls);
    var cs := WallCorners(container);
    var maxHeight := 0;
    var idx := start;
    var endIdx := start;
    while idx < |order|
      invariant start <= idx <= |order| && |cs| == BinWalls + (idx - start)
      invariant idx > start ==> endIdx == idx - 1
      invariant FillFrom(place, solids, order, Walls(BinWalls), WallCorners(container), 0, start)
             == FillFrom(place, solids, order, obstacles, cs, maxHeight, idx)
    {
      endIdx := idx;
      var block := solids[order[idx]];
      var res := place(block.shape, obstacles, cs);
      if res.Err? {
        return Err(res.error);
      }
      if res.value.0 >= INF {
        endIdx := endIdx - 1;
        break;
      }
      maxHeight := Max(maxHeight, res.value.0);
      obstacles := obstacles + [block];
      cs := cs + [res.value.1];
      idx := idx + 1;
    }
    r := Ok((maxHeight, cs[BinWalls..BinWalls + (endIdx - start + 1)], endIdx));
  }

  method EvalSequential(place: Placer, solids: seq<Solid>, order: seq<int>, container: Shape, volume: Option<int>)
    returns (r: Result<(real, seq<Run>)>)
    requires OrderIn(order, |solids|)
    ensures r == SeqScore(place, solids, order, container, volume)
  {
    var start: nat := 0;
    var nContainers := 0;
    var factor := 0.0;
    var runs: seq<Run> := [];
    while nContainers < |order|
      invariant nContainers <= |order| && start <= |order|
      invariant SeqScore(place, solids, order, container, volume) == SeqLoop(place, solids, order, container, volume, nContainers, start, factor, runs)
    {
      if start == |order| {
        break;
      }
      var f := FillContainer(place, solids, order, container, start);
      if f.Err? {
        return Err(f.error);
      }
      var end := f.value.2;
      if volume.None? {
        return Err(NoContainerVolume);
      }
      if volume.value == 0 {
        return Err(DivisionByZero);
      }
      factor := PackingFactor(solids, order, start, end + 1, volume.value);
      runs := runs + [Run(start, end, f.value.1)];
      if start == end {
        return Ok((factor + ((nContainers + 1) * INF) as real, runs));
      }
      nContainers := nContainers + 1;
      start := end + 1;
    }
    r := Ok((factor + (nContainers * INF) as real, runs));
  }

  /** Consecutive runs from `start` on: each starts where the previous one ended, ends
      no later than the order does, and holds one corner per position. */
  ghost predicate Contiguous(runs: seq<Run>, start: int, n: int) {
    && (forall i :: 0 <= i < |runs| ==>
          && runs[i].start - 1 <= runs[i].end < n
          && |runs[i].corners| == runs[i].end - runs[i].start + 1)
    && (|runs| > 0 ==> runs[0].start == start)
    && forall i :: 0 <= i < |runs| - 1 ==> runs[i + 1].start == runs[i].end + 1
  }

  lemma {:induction false} SeqLoopRuns(place: Placer, solids: seq<Solid>, order: seq<int>, container: Shape, volume: Option<int>,
                                       it: nat, start: nat, factor: real, runs: seq<Run>)
    requires OrderIn(order, |solids|) && start <= |order|
    requires SeqLoop(place, solids, order, container, volume, it, start, factor, runs).Ok?
    decreases |order| - it
    ensures var all := SeqLoop(place, solids, order, container, volume, it, start, factor, runs).value.1;
            && |runs| <= |all| && all[..|runs|] == runs
            && Contiguous(all[|runs|..], start, |order|)
            && (|all| == |runs| <==> it >= |order| || start == |order|)
            && forall i :: |runs| <= i < |all| - 1 ==> all[i].start != all[i].end
  {
    if it >= |order| || start == |order| {
    } else {
      var f := Fill(place, solids, order, container, start).value;
      var run := Run(start, f.2, f.1);
      var runs' := runs + [run];
      if start != f.2 {
        var factor' := PackingFactor(solids, order, start, f.2 + 1, volume.value);
        SeqLoopRuns(place, solids, order, container, volume, it + 1, f.2 + 1, factor', runs');
        var all := SeqLoop(place, solids, order, container, volume, it, start, factor, runs).value.1;
        assert all[..|runs'|] == runs';
        assert all[..|runs|] == runs' [..|runs|] == runs;
        assert all[|runs|..] == [run] + all[|runs'|..] by {
          assert all[|runs|] == runs'[|runs|] == run;
        }
        ContiguousCons(run, all[|runs'|..], start, |order|);
      } else {
        ContiguousCons(run, [], start, |order|);
        assert [run] + [] == [run];
      }
    }
  }

  lemma ContiguousCons(run: Run, rest: seq<Run>, start: int, n: int)
    requires run.start == start && run.start - 1 <= run.end < n && |run.corners| == run.end - run.start + 1
    requires Contiguous(rest, run.end + 1, n)
    ensures Contiguous([run] + rest, start, n)
  {
    var all := [run] + rest;
    forall i | 1 <= i < |all| ensures all[i] == rest[i - 1] {
    }
  }

  lemma {:induction false} SeqLoopScore(place: Placer, solids: seq<Solid>, order: seq<int>, container: Shape, volume: Option<int>,
                                        it: nat, start: nat, factor: real, runs: seq<Run>)
    requires OrderIn(order, |solids|) && start <= |order|
    requires SeqLoop(place, solids, order, container, volume, it, start, factor, runs).Ok?
    decreases |order| - it
    ensures var (score, all) := SeqLoop(place, solids, order, container, volume, it, start, factor, runs).value;
            && |runs| <= |all| && all[..|runs|] == runs
            && (|all| == |runs| ==> score == factor + (it * INF) as real)
            && (|all| > |runs| ==>
                  var last := all[|all| - 1];
                  && volume.Some? && volume.value != 0
                  && 0 <= last.start <= last.end + 1 <= |order|
                  && score == PackingFactor(solids, order, last.start, last.end + 1, volume.value)
                              + ((it + |all| - |runs|) * INF) as real)
  {
    if it >= |order| || start == |order| {
    } else {
      var f := Fill(place, solids, order, container, start).value;
      var runs' := runs + [Run(start, f.2, f.1)];
      if start != f.2 {
        var factor' := PackingFactor(solids, order, start, f.2 + 1, volume.value);
        SeqLoopScore(place, solids, order, container, volume, it + 1, f.2 + 1, factor', runs');
        var all := SeqLoop(place, solids, order, container, volume, it, start, factor, runs).value.1;
        assert all[..|runs'|][|runs|] == Run(start, f.2, f.1);
        assert all[..|runs|] == all[..|runs'|][..|runs|];
      }
    }
  }

  /** Sequential packing's score is the last container's packing factor plus INF for
      every container opened; the containers take consecutive stretches of the order
      from its start, and a container that took a single block is always the last. */
  lemma SeqScoreMeaning(place: Placer, solids: seq<Solid>, order: seq<int>, container: Shape, volume: Option<int>)
    requires OrderIn(order, |solids|)
    requires SeqScore(place, solids, order, container, volume).Ok?
    ensures var (score, runs) := SeqScore(place, solids, order, container, volume).value;
            && Contiguous(runs, 0, |order|)
            && (runs == [] ==> |order| == 0 && score == 0.0)
            && (runs != [] ==>
                  var last := runs[|runs| - 1];
                  && volume.Some? && volume.value != 0
                  && 0 <= last.start <= last.end + 1 <= |order|
                  && score == PackingFactor(solids, order, last.start, last.end + 1, volume.value)
                              + (|runs| * INF) as real)
            && forall i :: 0 <= i < |runs| - 1 ==> runs[i].start != runs[i].end
  {
    SeqScoreRuns(place, solids, order, container, volume);
    SeqScoreValue(place, solids, order, container, volume);
  }

  lemma SeqScoreRuns(place: Placer, solids: seq<Solid>, order: seq<int>, container: Shape, volume: Option<int>)
    requires OrderIn(order, |solids|)
    requires SeqScore(place, solids, order, container, volume).Ok?
    ensures var runs := SeqScore(place, solids, order, container, volume).value.1;
            && Contiguous(runs, 0, |order|)
            && (runs == [] ==> |order| == 0)
            && forall i :: 0 <= i < |runs| - 1 ==> runs[i].start != runs[i].end
  {
    SeqLoopRuns(place, solids, order, container, volume, 0, 0, 0.0, []);
    var runs := SeqLoop(place, solids, order, container, volume, 0, 0, 0.0, []).value.1;
    assert runs[0..] == runs;
  }

  lemma SeqScoreValue(place: Placer, solids: seq<Solid>, order: seq<int>, container: Shape, volume: Option<int>)
    requires OrderIn(order, |solids|)
    requires SeqScore(place, solids, order, container, volume).Ok?
    ensures var (score, runs) := SeqScore(place, solids, order, container, volume).value;
            && (runs == [] ==> score == 0.0)
            && (runs != [] ==>
                  var last := runs[|runs| - 1];
                  && volume.Some? && volume.value != 0
                  && 0 <= last.start <= last.end + 1 <= |order|
                  && score == PackingFactor(solids, order, last.start, last.end + 1, volume.value)
                              + (|runs| * INF) as real)
  {
    SeqLoopScore(place, solids, order, container, volume, 0, 0, 0.0, []);
  }

  /** Read as written, the container volume does not exist, so sequential packing
      fails on any non-empty order whose first container fills without error. */
  lemma NoVolumeAlwaysFails(place: Placer, solids: seq<Solid>, order: seq<int>, container: Shape)
    requires OrderIn(order, |solids|) && |order| > 0
    ensures SeqScore(place, solids, order, container, None).Err?
    ensures Fill(place, solids, order, container, 0).Ok? ==> SeqScore(place, solids, order, container, None) == Err(NoContainerVolume)
  {
  }

  // ---------------------------------------------------------------------------
  // BinPackingSolver2: first fit over the containers opened so far.
  // ---------------------------------------------------------------------------

  /** One container's obstacles and their corners, walls first. */
  datatype Bin = Bin(obstacles: seq<Solid>, corners: seq<Corner>)

  /** The first container from `ci` on where the block scores below INF, with its corner. */
  function FitFrom(place: Placer, bins: seq<Bin>, s: Solid, ci: nat): (r: Result<Option<(nat, Corner)>>)
    decreases |bins| - ci
    ensures r.Ok? && r.value.Some? ==> ci <= r.value.value.0 < |bins|
  {
    if ci >= |bins| then Ok(None)
    else
      var tc :- place(s.shape, bins[ci].obstacles, bins[ci].corners);
      if tc.0 >= INF then FitFrom(place, bins, s, ci + 1) else Ok(Some((ci, tc.1)))
  }

  /** FitFrom picks the first container that takes the block, and finds none only when
      every container from ci on rejects it. */
  lemma {:induction false} FitFromIsFirst(place: Placer, bins: seq<Bin>, s: Solid, ci: nat)
    requires FitFrom(place, bins, s, ci).Ok?
    decreases |bins| - ci
    ensures match FitFrom(place, bins, s, ci).value
      case Some((c, corner)) =>
        && (exists t :: t < INF && place(s.shape, bins[c].obstacles, bins[c].corners) == Ok((t, corner)))
        && forall c' :: ci <= c' < c ==> Rejects(place, bins[c'], s)
      case None =>
        forall c' :: ci <= c' < |bins| ==> Rejects(place, bins[c'], s)
  {
    if ci < |bins| {
      var tc := place(s.shape, bins[ci].obstacles, bins[ci].corners).value;
      if tc.0 >= INF {
        FitFromIsFirst(place, bins, s, ci + 1);
      }
    }
  }

  /** The container can be evaluated for the block and has no place below INF for it. */
  predicate Rejects(place: Placer, b: Bin, s: Solid) {
    var r := place(s.shape, b.obstacles, b.corners);
    r.Ok? && r.value.0 >= INF
  }

  /** The containers every block is placed into: six walls, then at least one block. */
  ghost predicate WellFormedBins(bins: seq<Bin>) {
    forall c :: 0 <= c < |bins| ==>
      && |bins[c].obstacles| == |bins[c].corners| > BinWalls
      && bins[c].obstacles[..BinWalls] == Walls(BinWalls)
  }

  /** One block placed first-fit: into the first container that takes it, else into a
      new six-wall container, failing when even an empty container cannot take it. */
  function PlaceFirstFit(place: Placer, bins: seq<Bin>, s: Solid, container: Shape): (r: Result<(seq<Bin>, (nat, Corner))>)
  {
    var fit :- FitFrom(place, bins, s, 0);
    if fit.Some? then
      var ci := fit.value.0;
      var corner := fit.value.1;
      Ok((bins[ci := Bin(bins[ci].obstacles + [s], bins[ci].corners + [corner])], (ci, corner)))
    else
      var tc :- place(s.shape, Walls(BinWalls), WallCorners(container));
      if tc.0 >= INF then Err(TooLargeBlock)
      else Ok((bins + [Bin(Walls(BinWalls) + [s], WallCorners(container) + [tc.1])], (|bins|, tc.1)))
  }

  /** Containers and (container index, corner) per position after the first k blocks. */
  function FirstFitPack(place: Placer, solids: seq<Solid>, order: seq<int>, container: Shape, k: nat): Result<(seq<Bin>, seq<(nat, Corner)>)>
    requires k <= |order| && OrderIn(order, |solids|)
  {
    if k == 0 then Ok(([], []))
    else
      var p :- FirstFitPack(place, solids, order, container, k - 1);
      var q :- PlaceFirstFit(place, p.0, solids[order[k - 1]], container);
      Ok((q.0, p.1 + [q.1]))
  }

  /** `BinPackingSolver2.__calc_score_and_corners`: the number of blocks in the last
      container plus INF for every container; no container at all is an IndexError. */
  function FirstFitScore(place: Placer, solids: seq<Solid>, order: seq<int>, container: Shape): Result<(real, seq<(nat, Corner)>)>
    requires OrderIn(order, |solids|)
  {
    var p :- FirstFitPack(place, solids, order, container, |order|);
    if |p.0| == 0 then Err(EmptyPacking)
    else Ok((((|p.0[|p.0| - 1].obstacles| - BinWalls) + |p.0| * INF) as real, p.1))
  }

  lemma {:induction false} FirstFitPackErrSticks(place: Placer, solids: seq<Solid>, order: seq<int>, container: Shape, k: nat, m: nat)
    requires k <= m <= |order| && OrderIn(order, |solids|)
    requires FirstFitPack(place, solids, order, container, k).Err?
    ensures FirstFitPack(place, solids, order, container, m) == FirstFitPack(place, solids, order, container, k)
    decreases m
  {
    if m > k {
      FirstFitPackErrSticks(place, solids, order, container, k, m - 1);
    }
  }

  method PlaceBlock(place: Placer, bins: seq<Bin>, s: Solid, container: Shape) returns (r: Result<(seq<Bin>, (nat, Corner))>)
    ensures r == PlaceFirstFit(place, bins, s, container)
  {
    var ci := 0;
    while ci < |bins|
      invariant ci <= |bins|
      invariant FitFrom(place, bins, s, 0) == FitFrom(place, bins, s, ci)
    {
      var res := place(s.shape, bins[ci].obstacles, bins[ci].corners);
      if res.Err? {
        return Err(res.error);
      }
      if res.value.0 >= INF {
        ci := ci + 1;
        continue;
      }
      var corner := res.value.1;
      return Ok((bins[ci := Bin(bins[ci].obstacles + [s], bins[ci].corners + [corner])], (ci, corner)));
    }
    var walls := Walls(BinWalls);
    var cs := WallCorners(container);
    var res := place(s.shape, walls, cs);
    if res.Err? {
      return Err(res.error);
    }
    if res.value.0 >= INF {
      return Err(TooLargeBlock);
    }
    r := Ok((bins + [Bin(walls + [s], cs + [res.value.1])], (|bins|, res.value.1)));
  }

  method EvalFirstFit(place: Placer, solids: seq<Solid>, order: seq<int>, container: Shape) returns (r: Result<(real, seq<(nat, Corner)>)>)
    requires OrderIn(order, |solids|)
    ensures r == FirstFitScore(place, solids, order, container)
  {
    var bins: seq<Bin> := [];
    var placements: seq<(nat, Corner)> := [];
    for k := 0 to |order|
      invariant FirstFitPack(place, solids, order, container, k) == Ok((bins, placements))
    {
      var res := PlaceBlock(place, bins, solids[order[k]], container);
      if res.Err? {
        FirstFitPackErrSticks(place, solids, order, container, k + 1, |order|);
        return Err(res.error);
      }
      bins := res.value.0;
      placements := placements + [res.value.1];
    }
    if |bins| == 0 {
      return Err(EmptyPacking);
    }
    r := Ok((((|bins[|bins| - 1].obstacles| - BinWalls) + |bins| * INF) as real, placements));
  }

  /** Placing a block keeps every container well formed and points at an existing one. */
  lemma PlaceFirstFitShape(place: Placer, bins: seq<Bin>, s: Solid, container: Shape)
    requires WellFormedBins(bins)
    requires PlaceFirstFit(place, bins, s, container).Ok?
    ensures var (bins', (c, _)) := PlaceFirstFit(place, bins, s, container).value;
            && WellFormedBins(bins') && c < |bins'| && |bins| <= |bins'| <= |bins| + 1
  {
    var fit := FitFrom(place, bins, s, 0).value;
    if fit.None? {
      var bins' := PlaceFirstFit(place, bins, s, container).value.0;
      assert bins'[|bins|].obstacles[..BinWalls] == Walls(BinWalls);
    }
  }

  /** After k blocks: one placement per block, each into an existing container, every
      container well formed, and at most one container per block. */
  lemma {:induction false} FirstFitPackShape(place: Placer, solids: seq<Solid>, order: seq<int>, container: Shape, k: nat)
    requires k <= |order| && OrderIn(order, |solids|)
    requires FirstFitPack(place, solids, order, container, k).Ok?
    ensures var (bins, placements) := FirstFitPack(place, solids, order, container, k).value;
            && |placements| == k && WellFormedBins(bins) && |bins| <= k && (k > 0 ==> |bins| > 0)
            && forall i :: 0 <= i < k ==> placements[i].0 < |bins|
  {
    if k > 0 {
      FirstFitPackShape(place, solids, order, container, k - 1);
      var p := FirstFitPack(place, solids, order, container, k - 1).value;
      PlaceFirstFitShape(place, p.0, solids[order[k - 1]], container);
    }
  }

  /** First-fit's score is INF per container plus the last container's block count,
      which is at least one; it fails only for an empty order or a block that fits
      nowhere. */
  lemma FirstFitScoreMeaning(place: Placer, solids: seq<Solid>, order: seq<int>, container: Shape)
    requires OrderIn(order, |solids|)
    requires FirstFitPack(place, solids, order, container, |order|).Ok?
    ensures var (bins, placements) := FirstFitPack(place, solids, order, container, |order|).value;
            && (FirstFitScore(place, solids, order, container).Err? <==> |order| == 0)
            && (|order| > 0 ==>
                  var score := FirstFitScore(place, solids, order, container).value.0;
                  var inLast := |bins[|bins| - 1].obstacles| - BinWalls;
                  && 1 <= inLast && score == (inLast + |bins| * INF) as real
                  && |placements| == |order|
                  && forall i :: 0 <= i < |order| ==> placements[i].0 < |bins|)
  {
    FirstFitPackShape(place, solids, order, container, |order|);
  }
}
