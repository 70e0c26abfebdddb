/** Three-dimensional integer grids: in-place prefix sums along one axis, the
    building block of both `np.cumsum(..., axis=k)` and the nested-list `cumsum`,
    and the first cell in a lexicographic scan. */
module Grid {
  import opened Failures

  type Cell = (int, int, int)

  predicate InGrid(a: array3<int>, i: int, j: int, k: int) {
    0 <= i < a.Length0 && 0 <= j < a.Length1 && 0 <= k < a.Length2
  }

  /** Every cell of `a` holds the value `g` gives it. */
  ghost predicate Holds(a: array3<int>, g: (int, int, int) -> int)
    reads a
  {
    forall i, j, k :: InGrid(a, i, j, k) ==> a[i, j, k] == g(i, j, k)
  }

  /** Inclusive prefix sums of g along the last axis (z), the middle axis (y), the first axis (x). */
  ghost function PrefZ(g: (int, int, int) -> int, i: int, j: int, k: int): int
    decreases k
  {
    if k <= 0 then g(i, j, 0) else PrefZ(g, i, j, k - 1) + g(i, j, k)
  }

  ghost function PrefY(g: (int, int, int) -> int, i: int, j: int, k: int): int
    decreases j
  {
    if j <= 0 then g(i, 0, k) else PrefY(g, i, j - 1, k) + g(i, j, k)
  }

  ghost function PrefX(g: (int, int, int) -> int, i: int, j: int, k: int): int
    decreases i
  {
    if i <= 0 then g(0, j, k) else PrefX(g, i - 1, j, k) + g(i, j, k)
  }

  /** Prefix-sums one z-line (i, j, ·) in place. */
  method PrefixLineZ(a: array3<int>, i: int, j: int, ghost g: (int, int, int) -> int)
    requires 0 <= i < a.Length0 && 0 <= j < a.Length1
    requires forall k :: 0 <= k < a.Length2 ==> a[i, j, k] == g(i, j, k)
    modifies a
    ensures forall k :: 0 <= k < a.Length2 ==> a[i, j, k] == PrefZ(g, i, j, k)
    ensures forall i', j', k' :: InGrid(a, i', j', k') && (i' != i || j' != j) ==> a[i', j', k'] == old(a[i', j', k'])
  {
    var k := 0;
    while k + 1 < a.Length2
      invariant 0 <= k && (k < a.Length2 || a.Length2 == 0)
      invariant forall i', j', k' :: InGrid(a, i', j', k') ==>
                  a[i', j', k'] == if i' != i || j' != j then old(a[i', j', k'])
                                   else if k' <= k then PrefZ(g, i, j, k') else g(i, j, k')
    {
      assert PrefZ(g, i, j, k + 1) == PrefZ(g, i, j, k) + g(i, j, k + 1);
      a[i, j, k + 1] := a[i, j, k + 1] + a[i, j, k];
      k := k + 1;
    }
  }

  /** Prefix-sums one y-line (i, ·, k) in place. */
  method PrefixLineY(a: array3<int>, i: int, k: int, ghost g: (int, int, int) -> int)
    requires 0 <= i < a.Length0 && 0 <= k < a.Length2
    requires forall j :: 0 <= j < a.Length1 ==> a[i, j, k] == g(i, j, k)
    modifies a
    ensures forall j :: 0 <= j < a.Length1 ==> a[i, j, k] == PrefY(g, i, j, k)
    ensures forall i', j', k' :: InGrid(a, i', j', k') && (i' != i || k' != k) ==> a[i', j', k'] == old(a[i', j', k'])
  {
    var j := 0;
    while j + 1 < a.Length1
      invariant 0 <= j && (j < a.Length1 || a.Length1 == 0)
      invariant forall i', j', k' :: InGrid(a, i', j', k') ==>
                  a[i', j', k'] == if i' != i || k' != k then old(a[i', j', k'])
                                   else if j' <= j then PrefY(g, i, j', k) else g(i, j', k)
    {
      assert PrefY(g, i, j + 1, k) == PrefY(g, i, j, k) + g(i, j + 1, k);
      a[i, j + 1, k] := a[i, j + 1, k] + a[i, j, k];
      j := j + 1;
    }
  }

  /** Prefix-sums one x-line (·, j, k) in place. */
  method PrefixLineX(a: array3<int>, j: int, k: int, ghost g: (int, int, int) -> int)
    requires 0 <= j < a.Length1 && 0 <= k < a.Length2
    requires forall i :: 0 <= i < a.Length0 ==> a[i, j, k] == g(i, j, k)
    modifies a
    ensures forall i :: 0 <= i < a.Length0 ==> a[i, j, k] == PrefX(g, i, j, k)
    ensures forall i', j', k' :: InGrid(a, i', j', k') && (j' != j || k' != k) ==> a[i', j', k'] == old(a[i', j', k'])
  {
    var i := 0;
    while i + 1 < a.Length0
      invariant 0 <= i && (i < a.Length0 || a.Length0 == 0)
      invariant forall i', j', k' :: InGrid(a, i', j', k') ==>
                  a[i', j', k'] == if j' != j || k' != k then old(a[i', j', k'])
                                   else if i' <= i then PrefX(g, i', j, k) else g(i', j, k)
    {
      assert PrefX(g, i + 1, j, k) == PrefX(g, i, j, k) + g(i + 1, j, k);
      a[i + 1, j, k] := a[i + 1, j, k] + a[i, j, k];
      i := i + 1;
    }
  }

  /** Cumulative sum along the z axis, in place: a[i,j,k] becomes the sum of g(i,j,0..k). */
  method CumsumZ(a: array3<int>, ghost g: (int, int, int) -> int)
    requires Holds(a, g)
    modifies a
    ensures Holds(a, (i, j, k) => PrefZ(g, i, j, k))
  {
    var i := 0;
    while i < a.Length0
      invariant 0 <= i <= a.Length0
      invariant forall i', j', k' :: InGrid(a, i', j', k') ==> a[i', j', k'] == if i' < i then PrefZ(g, i', j', k') else g(i', j', k')
    {
      var j := 0;
      while j < a.Length1
        invariant 0 <= j <= a.Length1
        invariant forall i', j', k' :: InGrid(a, i', j', k') ==>
          a[i', j', k'] == if i' < i || (i' == i && j' < j) then PrefZ(g, i', j', k') else g(i', j', k')
      {
        PrefixLineZ(a, i, j, g);
        j := j + 1;
      }
      i := i + 1;
    }
  }

  /** Cumulative sum along the y axis, in place. */
  method CumsumY(a: array3<int>, ghost g: (int, int, int) -> int)
    requires Holds(a, g)
    modifies a
    ensures Holds(a, (i, j, k) => PrefY(g, i, j, k))
  {
    var k := 0;
    while k < a.Length2
      invariant 0 <= k <= a.Length2
      invariant forall i', j', k' :: InGrid(a, i', j', k') ==> a[i', j', k'] == if k' < k then PrefY(g, i', j', k') else g(i', j', k')
    {
      var i := 0;
      while i < a.Length0
        invariant 0 <= i <= a.Length0
        invariant forall i', j', k' :: InGrid(a, i', j', k') ==>
          a[i', j', k'] == if k' < k || (k' == k && i' < i) then PrefY(g, i', j', k') else g(i', j', k')
      {
        PrefixLineY(a, i, k, g);
        i := i + 1;
      }
      k := k + 1;
    }
  }

  /** Cumulative sum along the x axis, in place. */
  method CumsumX(a: array3<int>, ghost g: (int, int, int) -> int)
    requires Holds(a, g)
    modifies a
    ensures Holds(a, (i, j, k) => PrefX(g, i, j, k))
  {
    var j := 0;
    while j < a.Length1
      invariant 0 <= j <= a.Length1
      invariant forall i', j', k' :: InGrid(a, i', j', k') ==> a[i', j', k'] == if j' < j then PrefX(g, i', j', k') else g(i', j', k')
    {
      var k := 0;
      while k < a.Length2
        invariant 0 <= k <= a.Length2
        invariant forall i', j', k' :: InGrid(a, i', j', k') ==>
          a[i', j', k'] == if j' < j || (j' == j && k' < k) then PrefX(g, i', j', k') else g(i', j', k')
      {
        PrefixLineX(a, j, k, g);
        k := k + 1;
      }
      j := j + 1;
    }
  }

  predicate InCube(x: Cell, lo: int, s: int) {
    lo <= x.0 < s && lo <= x.1 < s && lo <= x.2 < s
  }

  /** Strict lexicographic order on cells, the first component most significant. */
  predicate LexLess(x: Cell, y: Cell) {
    x.0 < y.0 || (x.0 == y.0 && (x.1 < y.1 || (x.1 == y.1 && x.2 < y.2)))
  }

  /** The first cell of [lo, s)^3, from (a, b, c) on in lexicographic order, that satisfies p. */
  function FirstCell(p: (int, int, int) -> bool, lo: int, s: int, a: int, b: int, c: int): Option<Cell>
    decreases s - a, s - b, s - c
  {
    if a >= s then None
    else if b >= s then FirstCell(p, lo, s, a + 1, lo, lo)
    else if c >= s then FirstCell(p, lo, s, a, b + 1, lo)
    else if p(a, b, c) then Some((a, b, c))
    else FirstCell(p, lo, s, a, b, c + 1)
  }

  lemma {:induction false} FirstCellFrom(p: (int, int, int) -> bool, lo: int, s: int, a: int, b: int, c: int)
    requires lo <= a && lo <= b && lo <= c
    decreases s - a, s - b, s - c
    ensures match FirstCell(p, lo, s, a, b, c)
      case Some(x) =>
        && InCube(x, lo, s) && p(x.0, x.1, x.2) && !LexLess(x, (a, b, c))
        && forall a', b', c' :: InCube((a', b', c'), lo, s) && !LexLess((a', b', c'), (a, b, c)) && LexLess((a', b', c'), x)
             ==> !p(a', b', c')
      case None =>
        forall a', b', c' :: InCube((a', b', c'), lo, s) && !LexLess((a', b', c'), (a, b, c)) ==> !p(a', b', c')
  {
    if a >= s {
    } else if b >= s {
      FirstCellFrom(p, lo, s, a + 1, lo, lo);
    } else if c >= s {
      FirstCellFrom(p, lo, s, a, b + 1, lo);
    } else if p(a, b, c) {
    } else {
      FirstCellFrom(p, lo, s, a, b, c + 1);
    }
  }

  /** FirstCell from the origin of the cube finds exactly the lexicographically least cell satisfying p. */
  lemma FirstCellIsLeast(p: (int, int, int) -> bool, lo: int, s: int)
    ensures match FirstCell(p, lo, s, lo, lo, lo)
      case Some(x) =>
        && InCube(x, lo, s) && p(x.0, x.1, x.2)
        && forall a, b, c :: InCube((a, b, c), lo, s) && LexLess((a, b, c), x) ==> !p(a, b, c)
      case None =>
        forall a, b, c :: InCube((a, b, c), lo, s) ==> !p(a, b, c)
  {
    FirstCellFrom(p, lo, s, lo, lo, lo);
  }

  /** A cell that satisfies p with no satisfying cell before it is what FirstCell returns. */
  lemma FirstCellUnique(p: (int, int, int) -> bool, lo: int, s: int, x: Cell)
    requires InCube(x, lo, s) && p(x.0, x.1, x.2)
    requires forall a, b, c :: InCube((a, b, c), lo, s) && LexLess((a, b, c), x) ==> !p(a, b, c)
    ensures FirstCell(p, lo, s, lo, lo, lo) == Some(x)
  {
    FirstCellIsLeast(p, lo, s);
  }
}
