/** The value types of the packing engine and the mutable Block of the
    strip-packing interface: shapes, corners, no-fit boxes, blocks and requests. */
module Geometry {

  /** The large finite number the engine uses as "infinity" (1e9). */
  const INF: int := 1_000_000_000

  /** Extents of a block: (depth, width, height). */
  datatype Shape = Shape(depth: int, width: int, height: int) {

    predicate Positive() {
      depth > 0 && width > 0 && height > 0
    }

    function Volume(): int {
      depth * width * height
    }

    /** The component at position i, as `shape[i]` indexes the tuple. */
    function At(i: int): int
      requires 0 <= i < 3
    {
      if i == 0 then depth else if i == 1 then width else height
    }

    /** The shape with components i and j exchanged. */
    function Swapped(i: int, j: int): (s: Shape)
      requires 0 <= i < 3 && 0 <= j < 3
      ensures s.At(i) == At(j) && s.At(j) == At(i)
      ensures forall k :: 0 <= k < 3 && k != i && k != j ==> s.At(k) == At(k)
    {
      var c := (k: int) requires 0 <= k < 3 => if k == i then At(j) else if k == j then At(i) else At(k);
      Shape(c(0), c(1), c(2))
    }

    /** Rotation about `axis`: components (axis+1)%3 and (axis+2)%3 trade places. */
    function Rotated(axis: int): Shape
      requires 0 <= axis < 3
    {
      Swapped((axis + 1) % 3, (axis + 2) % 3)
    }
  }

  /** Rotating about an axis keeps that axis's extent and exchanges the other two. */
  lemma RotatedFixesAxis(s: Shape, axis: int)
    requires 0 <= axis < 3
    ensures s.Rotated(axis).At(axis) == s.At(axis)
    ensures s.Rotated(axis).At((axis + 1) % 3) == s.At((axis + 2) % 3)
    ensures s.Rotated(axis).At((axis + 2) % 3) == s.At((axis + 1) % 3)
  {
  }

  /** The same rotation applied twice gives back the original shape. */
  lemma RotatedTwice(s: Shape, axis: int)
    requires 0 <= axis < 3
    ensures s.Rotated(axis).Rotated(axis) == s
  {
    var t := s.Rotated(axis).Rotated(axis);
    assert t.At(0) == s.At(0) && t.At(1) == s.At(1) && t.At(2) == s.At(2);
  }

  /** Rotation keeps the volume and keeps every extent positive. */
  lemma RotatedKeepsVolume(s: Shape, axis: int)
    requires 0 <= axis < 3
    ensures s.Rotated(axis).Volume() == s.Volume()
    ensures s.Positive() ==> s.Rotated(axis).Positive()
  {
    var t := s.Rotated(axis);
    if axis == 0 {
      assert t == Shape(s.depth, s.height, s.width);
    } else if axis == 1 {
      assert t == Shape(s.height, s.width, s.depth);
    } else {
      assert t == Shape(s.width, s.depth, s.height);
    }
  }

  /** Back-left-bottom reference point of a placed block: (x, y, z). */
  datatype Corner = Corner(x: int, y: int, z: int)

  /** A forbidden region for the new block's corner: (back, front, left, right, bottom, top). */
  datatype Box = Box(back: int, front: int, left: int, right: int, bottom: int, top: int)

  /** Display colour; carried along and copied, never interpreted. */
  datatype Color = Color(r: int, g: int, b: int)

  /** What the placement engine reads of a block or wall: its shape and whether
      anything may rest on it. */
  datatype Solid = Solid(shape: Shape, stackable: bool)

  /** A block of a request. Only its shape changes after construction (by rotation). */
  class Block {
    const name: string
    var shape: Shape
    const color: Color
    const stackable: bool
    const rightSideUp: bool
    /** Fixed at construction: an upright block only turns about the vertical axis. */
    const rotatableAxes: seq<int> := if rightSideUp then [2] else [0, 1, 2]

    constructor (name: string, shape: Shape, color: Color, stackable: bool, rightSideUp: bool)
      ensures this.name == name && this.shape == shape && this.color == color
      ensures this.stackable == stackable && this.rightSideUp == rightSideUp
    {
      this.name := name;
      this.shape := shape;
      this.color := color;
      this.stackable := stackable;
      this.rightSideUp := rightSideUp;
    }

    /** A fresh block equal in every field. */
    method Copy() returns (b: Block)
      ensures fresh(b)
      ensures b.name == name && b.shape == shape && b.color == color
      ensures b.stackable == stackable && b.rightSideUp == rightSideUp
      ensures b.rotatableAxes == rotatableAxes
    {
      b := new Block(name, shape, color, stackable, rightSideUp);
    }

    function Volume(): int
      reads this
    {
      shape.Volume()
    }

    function AsSolid(): Solid
      reads this
    {
      Solid(shape, stackable)
    }

    /** The axis drawn by the random source: entry `pick` of the rotatable axes. */
    function ChoiceRotateAxis(pick: nat): (axis: int)
      requires pick < |rotatableAxes|
      ensures axis in rotatableAxes && 0 <= axis < 3
      ensures rightSideUp ==> axis == 2
    {
      rotatableAxes[pick]
    }

    /** Rotate in place; an axis outside `rotatableAxes` fails the source's assertion. */
    method Rotate(axis: int)
      requires axis in rotatableAxes
      modifies this
      ensures 0 <= axis < 3 && shape == old(shape).Rotated(axis)
    {
      shape := shape.Rotated(axis);
    }
  }

  /** An upright block's only rotation keeps its height and its volume. */
  lemma RightSideUpKeepsHeight(b: Block, axis: int, s: Shape)
    requires b.rightSideUp && axis in b.rotatableAxes
    ensures axis == 2
    ensures s.Rotated(axis).height == s.height && s.Rotated(axis).Volume() == s.Volume()
    ensures s.Rotated(axis).depth == s.width && s.Rotated(axis).width == s.depth
  {
    RotatedKeepsVolume(s, axis);
  }

  /** The solids of a list of blocks, position by position. */
  function SolidsOf(bs: seq<Block>): (r: seq<Solid>)
    reads bs
    ensures |r| == |bs|
    ensures forall i :: 0 <= i < |bs| ==> r[i] == Solid(bs[i].shape, bs[i].stackable)
  {
    seq(|bs|, i requires 0 <= i < |bs| reads bs => bs[i].AsSolid())
  }

  /** Distinct objects: rotating one block changes no other. */
  predicate Distinct(bs: seq<Block>) {
    forall i, j :: 0 <= i < j < |bs| ==> bs[i] != bs[j]
  }

  /** No object of one list is in the other: changing one list's blocks leaves the other's solids alone. */
  predicate Apart(xs: seq<Block>, ys: seq<Block>) {
    forall i, j :: 0 <= i < |xs| && 0 <= j < |ys| ==> xs[i] != ys[j]
  }

  /** A strip-packing request: the blocks and the container's shape. */
  datatype Request = Request(blocks: seq<Block>, containerShape: Shape) {
    function NBlocks(): (n: nat)
      ensures n == |blocks|
    {
      |blocks|
    }
  }
}
