# PB: exact 3D packing by no-fit boxes, in Dafny

PB packs rectangular blocks into boxes-shaped containers. Its core is an exact
placement engine (`src/utils.py`). To place a new block among obstacles that are
already placed, it does the following:

- builds one no-fit box per obstacle: the corners at which the new block would
  overlap that obstacle;
- sorts the six faces of every no-fit box along each axis into sweep events;
- stamps eight inclusion-exclusion corners per box into a 2n × 2n × 2n grid and
  prefix-sums it, which gives an overlap count for every cell;
- picks the settleable cell that is least in (z, y, x) order. A settleable cell is
  uncovered, supported on all three sides, and not on top of a non-stackable block.

Three simulated-annealing solvers are built on this engine (`src/solver.py`):

- strip packing, where every block goes into one open-topped container;
- sequential bin packing, where the containers are filled one after another along
  the order;
- first-fit bin packing.

A fourth annealer works over several containers, each holding its own list of block
indices (`src/binpacking_solver.py`). Alongside these, the model covers the older
strip-packing prototype's block and engine (`models/sp3d/`) and the bin-packing
page's score decoder (`app/pages/bp3d.py`).

The model follows each source file's form.

- Pure computations are datatypes, functions and lemmas: no-fit boxes, events, rank
  maps, the solvers' evaluators, the decoder.
- Code that mutates state is imperative Dafny:
  - the grids are `array3<int>`, stamped and prefix-summed in place by methods
    proved against the functions above;
  - `Block` is a class whose `Rotate` changes its shape in place;
  - each annealer is a class whose move methods mutate the order or the blocks,
    then keep or roll back.
- Random draws (indices, axis picks, `log(rnd)` of the Metropolis test) are
  parameters.
- Scores are `real`; coordinates and extents are `int`.

Modules:

| module | models |
|---|---|
| `Failures` | the exceptions raised, as `Result` errors |
| `Geometry` | `src/interface.py` |
| `Sorting` | Python's stable `sorted` |
| `Grid` | in-place prefix sums over `array3<int>` and the first-cell search |
| `Sweep` | events, rank maps, and the stamp/prefix algebra that makes the grid a coverage count |
| `Placement` | `src/utils.py` |
| `Evaluators` | the three `__calc_score_and_corners` of `src/solver.py` |
| `Annealing` | the solver classes of `src/solver.py` |
| `MultiContainer` | `src/binpacking_solver.py` |
| `Sp3dInterface` | `models/sp3d/interface.py` |
| `Sp3dUtils` | `models/sp3d/utils.py` |
| `ScoreDecoder` | `app/pages/bp3d.py` |

## Model

| member | source | states |
|---|---|---|
| Geometry.Shape.Swapped | src/interface.py:57-61 | the two chosen extents trade places and the third is kept |
| Geometry.RotatedFixesAxis | src/interface.py:55-61 | rotating about an axis keeps that axis's extent and exchanges the other two |
| Geometry.RotatedTwice | src/interface.py:55-61 | a second rotation about the same axis restores the shape, which is what the solvers' rollback relies on |
| Geometry.RotatedKeepsVolume | src/interface.py:48-61 | rotation keeps the volume and keeps positive extents positive |
| Geometry.Block.constructor | src/interface.py:31-43 | the block holds the given name, shape, colour and flags; its rotatable axes follow from the upright flag |
| Geometry.Block.Copy | src/interface.py:45-46 | the copy is a new object equal in every field |
| Geometry.Block.ChoiceRotateAxis | src/interface.py:52-53 | the drawn axis is one of the block's rotatable axes, and 2 for an upright block |
| Geometry.Block.Rotate | src/interface.py:55-61 | an allowed axis turns the block's shape in place into its rotation about that axis |
| Geometry.RightSideUpKeepsHeight | src/interface.py:39-61 | an upright block's only rotation keeps its height and volume and exchanges depth and width |
| Geometry.Request.NBlocks | src/interface.py:69-71 | the block count is the length of the block list |
| Sorting.Sort | src/utils.py:35-38 | sorting returns the same elements with the same multiplicities |
| Sorting.SortSorted | src/utils.py:35-38 | for a total preorder the result is ordered and a permutation of the input |
| Sorting.SortTiesOrdered | src/solver.py:43-45 | the sort is stable: elements with equal keys keep their input order |
| Grid.CumsumZ | src/utils.py:91-93 | after the in-place pass each cell holds the inclusive sum of the old values along z |
| Grid.CumsumY | src/utils.py:91-94 | after the in-place pass each cell holds the inclusive sum of the old values along y |
| Grid.CumsumX | src/utils.py:91-94 | after the in-place pass each cell holds the inclusive sum of the old values along x |
| Grid.FirstCellIsLeast | src/utils.py:105-108 | the cell found satisfies the test and no cell before it in lexicographic order does; none is found only when no cell satisfies it |
| Grid.FirstCellUnique | src/utils.py:105-108 | a satisfying cell with no satisfying cell before it is the one the search returns |
| Sweep.TupleLeIsTotalPreorder | src/utils.py:35-46 | Python's order on (coordinate, sign, index) tuples is total and transitive, so `sorted` orders by it |
| Sweep.RankMap | src/utils.py:57-65 | every event's (index, flag) key is in the map, and each key maps to a position holding that key |
| Sweep.Rank | src/utils.py:70-75 | the rank looked up for a box's face is a position holding that face |
| Sweep.RanksOf | src/utils.py:69-75 | one rank box per no-fit box, each rank the position of the matching face among the sorted events |
| Sweep.Unstackables | src/utils.py:86-90 | only boxes of the input are kept, no more of them than there were |
| Sweep.Count | src/utils.py:98-99 | the overlap count of a cell is zero exactly when no box covers the cell |
| Sweep.TopCount | src/utils.py:104 | the top count of a cell is zero exactly when no box's top face holds the cell |
| Sweep.FieldCountsCovers | src/utils.py:77-93 | with proper boxes, prefix-summing the eight stamps along all three axes yields at each cell the number of boxes covering it |
| Sweep.FieldCountsTops | src/utils.py:86-94 | with proper boxes, the four top stamps prefix-summed along x and y count the boxes whose top face holds the cell |
| Placement.NoFitPolys | src/utils.py:12-29 | one box per (shape, corner) pair, and a corner lies strictly inside box o exactly when the new block there would share an interior point with obstacle o |
| Placement.NoFitPolysProper | src/utils.py:12-29 | with positive shapes every no-fit box has positive extent on every axis |
| Placement.AxisEvents | src/utils.py:35-46 | 2n events: the lower faces of boxes 0..n-1 and then their upper faces, each a face of its box |
| Placement.SortedEventsPermutation | src/utils.py:32-47 | each sorted event list is a permutation of the face events, ordered by tuple and so by coordinate |
| Placement.SortedEventsExitFirst | src/utils.py:35-46 | at a shared coordinate every upper face (-1) precedes every lower face (+1) |
| Placement.SortedEventsRanked | src/utils.py:57-75 | both faces of every box are present, so every rank lookup of `calc_stable_index` succeeds |
| Placement.StableIndex | src/utils.py:50-113 | the settleable cell least in (z, y, x) order; `NoStackablePointFound` exactly when stable cells exist but none is settleable; `NoStablePointFound` exactly when no cell is stable |
| Placement.StableMeaning | src/utils.py:95-103 | with proper boxes a cell is stable exactly when no box covers it and a box covers each of its three rolled neighbours |
| Placement.UnstackablesTops | src/utils.py:86-90 | the top count of the non-stackable boxes is zero exactly when no non-stackable box's top face holds the cell |
| Placement.UnstackMeaning | src/utils.py:86-104 | with proper boxes the unstackable grid is zero at a cell exactly when the cell is on no non-stackable box's top face |
| Placement.StampBox | src/utils.py:77-84 | the eight stamps add, at every cell, the product of the box's three one-axis stamp factors |
| Placement.StampTop | src/utils.py:86-90 | the four stamps of a non-stackable box add its x-y stamp product in its top plane only |
| Placement.FirstMarked | src/utils.py:105-108 | the marked cell returned is the first one in (z, y, x) order |
| Placement.StampObstacle | src/utils.py:69-90 | after obstacle idx both grids hold the stamp fields of the obstacles up to idx |
| Placement.ObstacleRanks | src/utils.py:70-75 | the six looked-up ranks are obstacle idx's rank box, all inside the grid |
| Placement.Zeros | src/utils.py:67-68 | a fresh cube grid of zeros, the stamp field of no boxes |
| Placement.StampAll | src/utils.py:66-90 | fresh distinct grids of side 2n that hold the stamps of all obstacles and of the non-stackable ones |
| Placement.StampEach | src/utils.py:69-90 | the stamping loop leaves the stamp fields of all obstacles in the grids |
| Placement.MarkStable | src/utils.py:95-103 | each cell is marked exactly when the overlap grid says it is stable |
| Placement.PrefixSums | src/utils.py:91-94 | the stamp fields become the fully prefix-summed overlap field and the x-y prefix-summed unstackable field |
| Placement.CalcStableIndex | src/utils.py:50-113 | the in-place grid algorithm returns exactly `StableIndex` of the events' ranks |
| Placement.Placed | src/utils.py:121-133 | the only error is `NoStablePointFound`; otherwise the result is (INF, INF corner) or a score equal to the corner's z plus the new block's height |
| Placement.FromIndex | src/utils.py:125-133 | `NoStackablePointFound` becomes (INF, INF corner), other errors propagate, and a found cell gives score = z + height |
| Placement.PlaceByGrid | src/utils.py:122-133 | the imperative orchestration returns exactly `Placed` |
| Placement.CalcScoreAndCorner | src/utils.py:116-133 | the method returns exactly the engine's score and corner for the block among the obstacles |
| Placement.EventsOfSorted | src/utils.py:32-47 | the three sorted lists are sweeps of the boxes: coordinate-ordered faces, both faces of every box |
| Placement.RanksProper | src/utils.py:57-75 | a box of positive extent keeps each lower face ranked before its upper face |
| Placement.UncoveredCellIsOutside | src/utils.py:129-131 | a cell no rank box covers gives a corner strictly inside no no-fit box |
| Placement.ChosenCellIsOutside | src/utils.py:104-131 | a settleable cell gives a corner strictly inside no no-fit box |
| Placement.PlacedIsOutside | src/utils.py:121-133 | unless reported at INF, the corner returned is strictly inside no proper no-fit box |
| Placement.PlacementAvoidsObstacles | src/utils.py:116-133 | with positive shapes, a block placed at the returned corner (unless reported at INF) shares no interior point with any obstacle |
| Evaluators.Walls | src/solver.py:54-72 | k walls, each a stackable 3INF cube |
| Evaluators.WallCorners | src/solver.py:74-81 | six wall corners around the container |
| Evaluators.StripPackErrSticks | src/solver.py:84-92 | once a placement raises, the evaluation ends in that error |
| Evaluators.EvalStrip | src/solver.py:48-97 | the loop returns exactly the strip score: highest finite top plus INF per unstacked block, corners by original index |
| Evaluators.ScatterAt | src/solver.py:93-95 | under a permutation, the block at position i of the order gets the i-th placed corner |
| Evaluators.StripScoreMeaning | src/solver.py:82-97 | the score is non-negative, below INF exactly when every block was stacked (and then the highest top), and each block's corner is where it was placed |
| Evaluators.FillFrom | src/solver.py:263-274 | filling stops at the last position taken, with one new corner per position taken and the earlier corners kept |
| Evaluators.Fill | src/solver.py:227-278 | a fresh container takes positions start..end, one corner each, with end possibly start - 1 |
| Evaluators.FillContainer | src/solver.py:227-278 | the loop returns exactly `Fill` |
| Evaluators.EvalSequential | src/solver.py:280-302 | the outer loop returns exactly the sequential score and runs |
| Evaluators.SeqLoopRuns | src/solver.py:286-300 | runs extend the given ones contiguously to the end of the order, and only the last run may hold a single position |
| Evaluators.SeqLoopScore | src/solver.py:286-301 | the score is the last run's packing factor plus INF per iteration, or the starting value when no run was added |
| Evaluators.SeqScoreMeaning | src/solver.py:280-302 | containers take consecutive stretches from position 0; the score is the last container's packing factor plus INF per container; a single-block container is always last |
| Evaluators.SeqScoreRuns | src/solver.py:286-300 | the runs are contiguous from position 0, are empty only for an empty order, and every run before the last holds more than one position |
| Evaluators.SeqScoreValue | src/solver.py:292-301 | the score is 0 for no runs, else the last run's packing factor plus INF per run |
| Evaluators.NoVolumeAlwaysFails | src/solver.py:293-295 | without a container volume, every non-empty order fails, with `NoContainerVolume` once the first container fills |
| Evaluators.FitFrom | src/solver.py:434-442 | the container found is among those from ci on |
| Evaluators.FitFromIsFirst | src/solver.py:434-442 | the container chosen takes the block below INF and every earlier one rejects it; none is found only when all reject it |
| Evaluators.FirstFitPackErrSticks | src/solver.py:430-480 | once a placement raises, the evaluation ends in that error |
| Evaluators.PlaceBlock | src/solver.py:433-480 | the method returns exactly the first-fit placement of one block |
| Evaluators.EvalFirstFit | src/solver.py:419-484 | the loop returns exactly the first-fit score and placements |
| Evaluators.PlaceFirstFitShape | src/solver.py:443-480 | placing keeps the containers well formed, adds at most one container, and points at an existing one |
| Evaluators.FirstFitPackShape | src/solver.py:430-480 | one placement per block, each into an existing well-formed container, never more containers than blocks |
| Evaluators.FirstFitScoreMeaning | src/solver.py:481-484 | fails only on an empty order (the IndexError); else INF per container plus the last container's block count, which is at least 1 |
| Annealing.Evaluate | src/solver.py:48-97 | the dispatch returns exactly the chosen solver's evaluation, the sequential one with the container's volume |
| Annealing.EvaluatorOf | src/solver.py:48-97 | the evaluator accepts every order in range and agrees with the evaluation |
| Annealing.KeyGeIsTotalPreorder | src/solver.py:44 | the (stackable, volume) order, largest first, is total and transitive |
| Annealing.SortedIndices | src/solver.py:40-46 | the sorted indices are a permutation in which (stackable, volume) never increases, and blocks with equal keys keep ascending index order, as Python's stable sort does |
| Annealing.InitialOrder | src/solver.py:40-46 | the initial order is a permutation of the block indices with (stackable, volume) non-increasing, and equal-key blocks in ascending index order (stability) |
| Annealing.SwappedSpec | src/solver.py:99-120 | a swap keeps a permutation, keeps the multiset, and a second identical swap restores the order |
| Annealing.SwappedTwice | src/solver.py:116-119 | swapping the same two positions again restores the sequence |
| Annealing.SwappedKeepsMultiset | src/solver.py:102-105 | a swap only reorders |
| Annealing.DownhillAccepted | src/solver.py:107-109 | a move that does not worsen the score always passes the Metropolis test |
| Annealing.RotateAtTwice | src/solver.py:126-137 | rotating the same block about the same axis twice restores every shape |
| Annealing.TurnBlock | src/solver.py:126 | only block idx is turned, and about its axis |
| Annealing.CopyAll | src/solver.py:26 | fresh distinct copies with the same shapes, stackability and rotatable axes |
| Annealing.Annealer.Create | src/solver.py:17-38 | fails exactly when the first evaluation fails; else fresh copied blocks, the sorted or shuffled order, and the best score, corners, order and block shapes equal to the current ones |
| Annealing.Annealer.Start | src/solver.py:29-35 | fails exactly when evaluating the first order fails; else a solver whose current and best scores and corners are that evaluation, with the best order and block shapes those of the start |
| Annealing.Annealer.Build | src/solver.py:30-35 | a valid solver whose best snapshot is the current state: equal score, corners, order (also the kept `opt_packing_order`) and block shapes |
| Annealing.Annealer.Swap | src/solver.py:99-120 | accepted exactly when the Metropolis test passes; accepted: the swapped order and its score; rejected: the order and score as before; the best is untouched |
| Annealing.Annealer.Adopt | src/solver.py:110-113 | the current score and corners become the evaluator's verdict on the current state |
| Annealing.Annealer.Rotate | src/solver.py:122-138 | accepted exactly when the Metropolis test passes; accepted: the rotated shapes and their score; rejected: the block turned back; the best is untouched |
| Annealing.Annealer.Step | src/solver.py:98-144 | with no blocks the draw from `range(n_blocks)` fails (EmptyDraw) and nothing changes; otherwise a swap when the draw says so or rotation is disallowed, else a rotation: an accepted swap leaves the old order with the two positions exchanged, an accepted rotation leaves the drawn block turned about its picked axis, each with the new score and corners, and a rejected move restores the old order and shapes and keeps the score and corners |
| Annealing.Annealer.Transit | src/solver.py:98-149 | the move's outcome as for Step (including EmptyDraw with no blocks); the best score never worsens, and an accepted move that ties or beats it becomes the new best while any other leaves the best untouched |
| Annealing.Annealer.RecordBest | src/solver.py:145-148 | the best becomes a fresh snapshot of the current blocks, score, corners and order |
| Annealing.Annealer.Keep | src/solver.py:146-148 | the snapshot is stored as the best and the solver is valid again |
| Annealing.Annealer.Solve | src/solver.py:169-192 | at most maxIter transitions; stopping early means the best fits under the container's height; a best that already fits (an empty request among them) returns at once with no transition; with no blocks the only failure is EmptyDraw; the response is the current blocks with the best corners |
| MultiContainer.BinRequest.NBlocks | src/binpacking_solver.py:78-79 | the block count is the length of the block list |
| MultiContainer.ContainerPack | src/binpacking_solver.py:133-145 | after k blocks: the walls then those blocks as obstacles, one corner each, each block placed where the engine put it |
| MultiContainer.ContainerPackErrSticks | src/binpacking_solver.py:135-145 | once a placement raises, the evaluation ends in that error |
| MultiContainer.EvalContainer | src/binpacking_solver.py:120-148 | the loop returns exactly the container's score and corners |
| MultiContainer.ContainerScoreMeaning | src/binpacking_solver.py:120-148 | one corner per listed block, each where the engine placed it; the score is the highest finite top plus 1e10 per unstacked block |
| MultiContainer.EngineKeepsLength | src/binpacking_solver.py:147 | the engine's container evaluation reports one corner per listed block |
| MultiContainer.Insert | src/binpacking_solver.py:281 | `list.insert` adds exactly one occurrence of the value |
| MultiContainer.FirstIndex | src/binpacking_solver.py:280 | the position `list.remove` uses is the value's first occurrence |
| MultiContainer.RemoveFirst | src/binpacking_solver.py:280 | `list.remove` drops exactly one occurrence of the value |
| MultiContainer.RemoveInserted | src/binpacking_solver.py:298-299 | removing a value that was absent before its insertion restores the list |
| MultiContainer.ShiftAsWrittenDrifts | src/binpacking_solver.py:288-296 | when both containers are one, the diff as written moves the total away from the sum of the scores |
| MultiContainer.ShiftDiffKeepsTotal | src/binpacking_solver.py:288-296 | the intended diff keeps the total minus the sum of scores fixed, for two containers or one |
| MultiContainer.Shifted | src/binpacking_solver.py:277-281 | the shift keeps the number of containers |
| MultiContainer.Unshifted | src/binpacking_solver.py:298-299 | the rollback keeps the number of containers |
| MultiContainer.ShiftedPool | src/binpacking_solver.py:280-281 | a shift keeps the multiset of block indices over all containers |
| MultiContainer.ShiftedRange | src/binpacking_solver.py:280-281 | a shift keeps every index in range and leaves other containers alone |
| MultiContainer.UnshiftedRestores | src/binpacking_solver.py:298-299 | a rejected shift restores every list, positions included, also within one container |
| MultiContainer.RotateElsewhere | src/binpacking_solver.py:231-232 | rotating a block changes nothing for containers that do not hold it |
| MultiContainer.SwapIn | src/binpacking_solver.py:252 | a swap keeps the number of containers and the list's length |
| MultiContainer.SwapInKeeps | src/binpacking_solver.py:252-261 | a swap keeps the pool and the index range, and undoes itself |
| MultiContainer.EvalAll | src/binpacking_solver.py:96-108 | fails exactly when some container fails; else every score and corner list is that container's evaluation, and the total is their sum plus 1e5 per non-empty container |
| MultiContainer.RecordContainer | src/binpacking_solver.py:85-87 | every listed block gets the container's index and its corner, and other blocks are untouched |
| MultiContainer.Responses | src/binpacking_solver.py:77-88 | each held block gets its container and corner; every other block gets -1 and the INF corner |
| MultiContainer.BinPacker.Create | src/binpacking_solver.py:90-108 | fails exactly when some container's evaluation fails; else every score is its list's and the total is their sum plus 1e5 per non-empty container |
| MultiContainer.BinPacker.Store | src/binpacking_solver.py:235-237 | one container's score and corners are replaced, and the total moves by the score's change |
| MultiContainer.BinPacker.Rotate | src/binpacking_solver.py:219-240 | accepted exactly when the Metropolis test passes; accepted: the container's new score and the total moved by diff; rejected: the block turned back and nothing else changed |
| MultiContainer.BinPacker.Swap | src/binpacking_solver.py:242-262 | accepted exactly when the Metropolis test passes; accepted: the swapped list's score and the total moved by diff; rejected: the swap undone |
| MultiContainer.BinPacker.CommitShift | src/binpacking_solver.py:291-297 | both containers take their new scores and corners, and the total moves by the intended diff |
| MultiContainer.BinPacker.Unshift | src/binpacking_solver.py:298-300 | the lists are restored and scores and total are unchanged |
| MultiContainer.BinPacker.Restore | src/binpacking_solver.py:298-299 | the two list operations restore the assignment |
| MultiContainer.BinPacker.Shift | src/binpacking_solver.py:264-300 | accepted exactly when the Metropolis test passes on the intended diff; accepted: both containers rescored and the total moved by that diff; rejected: the lists restored |
| MultiContainer.BinPacker.Settle | src/binpacking_solver.py:282-300 | the two containers are evaluated in order, then committed or rolled back as the test decides |
| MultiContainer.BinPacker.Decide | src/binpacking_solver.py:288-300 | the shift is accepted exactly when the test passes on the intended diff, and the state is committed or restored to match |
| MultiContainer.BinPacker.Transit | src/binpacking_solver.py:219-309 | with every container empty the container draw fails (EmptyDraw) and nothing changes; otherwise rnd < 1/3 gives the swap, rnd < 2/3 the rotation and the rest the shift, each with its new assignment or shapes, scores, corners and total when accepted and the exact old state when rejected; every move keeps the pool of indices and the total minus the sum of scores |
| MultiContainer.BinPacker.CornersAlign | src/binpacking_solver.py:147 | each container holds one corner per listed block |
| MultiContainer.BinPacker.Response | src/binpacking_solver.py:77-88 | each held block gets its container and corner; every other block gets -1 and the INF corner |
| Sp3dInterface.RotatedAsWritten | models/sp3d/interface.py:27-35 | succeeds exactly for axes 0, 1 and 2; any other axis raises |
| Sp3dInterface.RotatedIntended | models/sp3d/interface.py:27-35 | succeeds exactly for axes 0, 1 and 2; any other axis raises |
| Sp3dInterface.AxisZeroDoesNothing | models/sp3d/interface.py:28-29 | as written, axis 0 leaves every shape unchanged; (1, 2, 3) stays put where the intended result is (1, 3, 2) |
| Sp3dInterface.AsWrittenAgreesOffAxisZero | models/sp3d/interface.py:30-35 | for every axis other than 0 the code as written is the intended rotation, errors included |
| Sp3dInterface.IntendedRotationInvolution | models/sp3d/interface.py:27-35 | the intended rotation keeps volume and the axis's extent, exchanges the other two, and undoes itself |
| Sp3dInterface.Block.constructor | models/sp3d/interface.py:17-22 | the block holds the given name and extents |
| Sp3dInterface.Block.Copy | models/sp3d/interface.py:24-25 | a new block equal in name and extents |
| Sp3dInterface.Block.Rotate | models/sp3d/interface.py:27-35 | axes 0-2 rotate the extents in place and keep the volume; any other axis raises and changes nothing |
| Sp3dInterface.RotateTwice | models/sp3d/interface.py:27-35 | two rotations about the same axis restore the block's extents |
| Sp3dInterface.Request.NBlocks | models/sp3d/interface.py:42-44 | the block count is the length of the block list |
| Sp3dUtils.EnterFirstLeIsTotalPreorder | models/sp3d/utils.py:51 | the key (coord, -sign) orders events totally and transitively |
| Sp3dUtils.AxisEventsTiesByIndex | models/sp3d/utils.py:48-50 | before sorting, events with equal keys are faces of one kind listed by box index |
| Sp3dUtils.EnterFirstOrder | models/sp3d/utils.py:45-63 | the sorted events are a permutation of the faces, ordered by coordinate with lower faces first at a tie, and by box index within one kind |
| Sp3dUtils.EnterFirstEventsOf | models/sp3d/utils.py:45-63 | the three lists are sweeps of the boxes, so every rank lookup succeeds |
| Sp3dUtils.Cumsum | models/sp3d/utils.py:27-42 | in place, each cell becomes the inclusive prefix sum of the old grid; a grid with no rows or no columns raises and is left unchanged |
| Sp3dUtils.CumulativeOfStamps | models/sp3d/utils.py:87-95 | prefix-summing every box's eight stamps gives at each cell the fully prefix-summed field |
| Sp3dUtils.StampCount | models/sp3d/utils.py:87-94 | one iteration adds box idx's eight stamps to the field |
| Sp3dUtils.CalcOverlaps | models/sp3d/utils.py:66-96 | no boxes raise; else a fresh grid of side 2n that holds at each cell the prefix-summed field, which counts the covering boxes |
| Sp3dUtils.StampAll | models/sp3d/utils.py:78-94 | a fresh cube grid of side 2n holding every box's stamps |
| Sp3dUtils.Accumulate | models/sp3d/utils.py:95 | an empty grid raises; otherwise the stamps become the prefix-summed field |
| Sp3dUtils.RestingCell | models/sp3d/utils.py:106-121 | the cell is inside [1, 2n)^3; no boxes is the empty-grid error; the only other error is `NoStablePointFound` |
| Sp3dUtils.RestingCellIsLeast | models/sp3d/utils.py:106-121 | the cell rests and no cell before it in (x, y, z) order does; `NoStablePointFound` exactly when boxes exist and no cell rests |
| Sp3dUtils.ScanResting | models/sp3d/utils.py:106-115 | the triple loop returns the first resting cell in (x, y, z) order |
| Sp3dUtils.EnterFirstSweeps | models/sp3d/utils.py:104 | the three event lists are sweeps of the no-fit boxes |
| Sp3dUtils.ReadOut | models/sp3d/utils.py:116-120 | the front is the corner's x plus the new block's depth |
| Sp3dUtils.ReadOutAsWritten | models/sp3d/utils.py:116-120 | the front is the corner's x plus the new block's depth |
| Sp3dUtils.FrontAndCorner | models/sp3d/utils.py:99-121 | front = x + depth; the empty-grid error exactly when there are no obstacles; otherwise only `NoStablePointFound` |
| Sp3dUtils.FrontAndCornerAsWritten | models/sp3d/utils.py:99-121 | front = x + depth |
| Sp3dUtils.CalcReadOut | models/sp3d/utils.py:105-121 | the imperative grid and scan return exactly the intended read-out |
| Sp3dUtils.CalcFrontAndCorner | models/sp3d/utils.py:99-121 | the method returns exactly the intended front and corner |
| Sp3dUtils.FrontAndCornerAvoidsObstacles | models/sp3d/utils.py:99-121 | with positive shapes, the block placed at the returned corner shares no interior point with any obstacle |
| Sp3dUtils.RankMapMoved | models/sp3d/utils.py:69-77 | rank maps read only keys, so moving the coordinates leaves them alone |
| Sp3dUtils.ReadOutMoved | models/sp3d/utils.py:116-118 | moving the y events leaves the read-out as written unchanged, while the intended corner's y moves with them |
| Sp3dUtils.AsWrittenCornerIgnoresSideways | models/sp3d/utils.py:116-118 | moving every obstacle sideways by d leaves the corner as written where it was, while the intended corner moves by d |
| ScoreDecoder.Decode | app/pages/bp3d.py:12-19 | the parts add back up to the score, the rest is below the container penalty, and a non-negative score gives a non-negative unpacked count |
| ScoreDecoder.DecodeEncode | app/pages/bp3d.py:12-19 | decoding recovers the parts of any score the annealer builds (src/binpacking_solver.py:105-108, 146) whose containers' penalties and heights stay below one unstacked-block penalty |

## Left out

- Rendering, visualisers, logging, timing, `loop_render` and `KeyboardInterrupt` handling: output and I/O only.
- MultiContainer.BinPacker.Shift: like `__shift` (src/binpacking_solver.py:288-296), it never recounts the 1e5 penalty per non-empty container, so the total keeps the penalties of the containers that were non-empty at `initialize`. A shift that empties a container, or fills an empty one, leaves the total different from what `EvalAll` gives on the new assignment. `BinPacker.Valid` therefore fixes total − Σ scores at its initial value (`offset`) on purpose, and does not promise the recounted penalty.
- Drawing from an empty range or list (`rng.choice`, `rng.choices` in `src/solver.py:100,122` and `src/binpacking_solver.py:220-272`) raises IndexError, modelled as the `EmptyDraw` error; the draws themselves are parameters that must lie in range whenever something can be drawn.
- Randomness: every `rng` draw (indices, axis picks, shuffles, `rnd` of the move choice) is a parameter, and the Metropolis test takes `log(rnd)` as a real; `math.log(0)` in `src/binpacking_solver.py` (which would raise) is not modelled.
- The MILP initial assignment of `src/binpacking_solver.py` (`initial_assignment`, lines 150-217, solved by an external LP solver) is an input to `BinPacker.Create`; the model requires only that it lists every index at most once, in range.
- Floating point: scores are exact reals and coordinates are integers; rounding in `np.cumsum` on `int32`, float division and float `//` are not modelled (`int32` overflow needs more than 2^31 boxes).
- `calc_top_height_and_corner`, which the solvers import, is not defined in `src/utils.py`; the model uses `calc_score_and_corner` in its place. Its extra ceiling-index argument is not used.
- The solvers call the engine through a `Placer` value; the theorems about the engine (`Placement.PlacementAvoidsObstacles`) are stated once for `Placement.Engine`.
- `BinPackingRequest` and `Container` are imported from `src/interface.py` but not defined there; `MultiContainer.BinRequest` defines only what the solver reads (blocks and container shapes).
- `models/sp3d/interface.py` does not define the `INF`, `Box` and `Shape` that `models/sp3d/utils.py` imports from it; `Geometry`'s types stand in.
- `app/pages/bp3d.py` imports `src.bin_packing_solver` while the file is `src/binpacking_solver.py`; the decoder uses the constants of the latter.
- `src/converter.py`, `src/data_generator.py`, `models/sp3d/solver.py`, `app/pages/sp3d.py` and the rest of `app/pages/bp3d.py` are not part of this model.
- An IndexError on an empty overlap grid (`count[0]` in `models/sp3d/utils.py:29`) is the `EmptyGrid` error.
- A move whose evaluation raises leaves its mutation in place, as the source does (the exception propagates); the model returns that error and does not claim `Valid()` afterwards.
- `BinPackingSolver2.render` (src/solver.py:551-570) is presentation only.

## Findings

| source | as written | input that shows it | evidently intended | confidence | as-written member | corrected member |
|---|---|---|---|---|---|---|
| src/solver.py:293-295 | the packing factor divides by `self.request.container_volume`, which `Request` (src/interface.py:64-71) does not define | any request with at least one block: the first container raises AttributeError | divide by the container's volume, depth × width × height of `container_shape` | not executed | Evaluators.NoVolumeAlwaysFails | Evaluators.SeqScoreMeaning |
| src/binpacking_solver.py:288-296 | `diff` adds the score change of container 1 and of container 2 even when `choices` drew the same container twice | one container with score s, shifted within itself to new score s' ≠ s: the total moves by 2(s' − s) while the scores' sum moves by s' − s | count a container that is both source and target once | not executed | MultiContainer.ShiftAsWrittenDrifts | MultiContainer.ShiftDiffKeepsTotal |
| models/sp3d/interface.py:28-29 | axis 0 uses `==` where `=` was meant: the line builds the tuple `(width, height == height, width)` and discards it, so nothing is assigned | a block with extents (1, 2, 3) rotated about axis 0 stays (1, 2, 3) | exchange width and height, giving (1, 3, 2) | not executed | Sp3dInterface.AxisZeroDoesNothing | Sp3dInterface.IntendedRotationInvolution |
| models/sp3d/utils.py:116-118 | the corner's y and z are read from `xs` at the y and z indices | any obstacles moved sideways by d ≠ 0 where a resting cell exists: the returned corner does not move | read y from `ys` and z from `zs` | not executed | Sp3dUtils.AsWrittenCornerIgnoresSideways | Sp3dUtils.FrontAndCornerAvoidsObstacles |

The corrected definitions are the ones the rest of the model uses:

- `Annealing.Evaluation` passes the container's volume to `Evaluators.SeqScore`.
- `MultiContainer.BinPacker.Shift` uses `MultiContainer.ShiftDiff`.
- `Sp3dInterface.Block.Rotate` follows `Sp3dInterface.RotatedIntended`.
- `Sp3dUtils.FrontAndCorner` and `Sp3dUtils.ReadOut` read y from `ys` and z from `zs`, and `Sp3dUtils.CalcFrontAndCorner` and `Sp3dUtils.CalcReadOut` compute them; `Sp3dUtils.FrontAndCornerAsWritten` keeps the read-out of lines 117-118.
