/** The block of the older strip-packing prototype: a named box whose depth,
    width and height `rotate` reassigns in place. */
module Sp3dInterface {
  import opened Failures
  import opened Geometry

  /** `rotate` as the prototype writes it. Axis 0 uses `==` where `=` was meant:
      the line builds the tuple `(width, height == height, width)` and discards
      it, so nothing is assigned and the shape is unchanged; axis 1 exchanges
      depth and height, axis 2 depth and width; any other axis fails. */
  function RotatedAsWritten(s: Shape, axis: int): (r: Result<Shape>)
    ensures r.Ok? <==> 0 <= axis < 3
  {
    if axis == 0 then Ok(s)
    else if axis == 1 then Ok(Shape(s.height, s.width, s.depth))
    else if axis == 2 then Ok(Shape(s.width, s.depth, s.height))
    else Err(BadAxis)
  }

  /** The intended `rotate`: every axis in {0, 1, 2} exchanges the two other extents. */
  function RotatedIntended(s: Shape, axis: int): (r: Result<Shape>)
    ensures r.Ok? <==> 0 <= axis < 3
  {
    if 0 <= axis < 3 then Ok(s.Rotated(axis)) else Err(BadAxis)
  }

  /** As written, axis 0 leaves every shape as it was: (1, 2, 3) stays (1, 2, 3)
      where the intended rotation gives (1, 3, 2). */
  lemma AxisZeroDoesNothing(s: Shape)
    ensures RotatedAsWritten(s, 0) == Ok(s)
    ensures s.width != s.height ==> RotatedAsWritten(s, 0) != RotatedIntended(s, 0)
    ensures RotatedAsWritten(Shape(1, 2, 3), 0) == Ok(Shape(1, 2, 3))
    ensures RotatedIntended(Shape(1, 2, 3), 0) == Ok(Shape(1, 3, 2))
  {
    RotatedFixesAxis(s, 0);
    RotatedFixesAxis(Shape(1, 2, 3), 0);
    assert Shape(1, 2, 3).Rotated(0).At(0) == 1 && Shape(1, 2, 3).Rotated(0).At(1) == 3;
  }

  /** Apart from axis 0 the code as written is the intended rotation, errors included. */
  lemma AsWrittenAgreesOffAxisZero(s: Shape, axis: int)
    requires axis != 0
    ensures RotatedAsWritten(s, axis) == RotatedIntended(s, axis)
  {
    if axis == 1 || axis == 2 {
      RotatedFixesAxis(s, axis);
      var t := s.Rotated(axis);
      assert t.At(0) == RotatedAsWritten(s, axis).value.At(0);
      assert t.At(1) == RotatedAsWritten(s, axis).value.At(1);
      assert t.At(2) == RotatedAsWritten(s, axis).value.At(2);
    }
  }

  /** The intended rotation keeps the volume and the extent along its axis,
      exchanges the other two, and undoes itself when applied twice. */
  lemma IntendedRotationInvolution(s: Shape, axis: int)
    requires 0 <= axis < 3
    ensures var t := RotatedIntended(s, axis).value;
            && t.Volume() == s.Volume() && t.At(axis) == s.At(axis)
            && t.At((axis + 1) % 3) == s.At((axis + 2) % 3) && t.At((axis + 2) % 3) == s.At((axis + 1) % 3)
    ensures RotatedIntended(RotatedIntended(s, axis).value, axis) == Ok(s)
  {
    RotatedKeepsVolume(s, axis);
    RotatedFixesAxis(s, axis);
    RotatedTwice(s, axis);
  }

  class Block {
    const name: string
    var depth: int
    var width: int
    var height: int

    constructor (name: string, depth: int, width: int, height: int)
      ensures this.name == name && this.depth == depth && this.width == width && this.height == height
    {
      this.name := name;
      this.depth := depth;
      this.width := width;
      this.height := height;
    }

    function Extents(): Shape
      reads this
    {
      Shape(depth, width, height)
    }

    /** `copy`: a new block equal in name and extents. */
    method Copy() returns (b: Block)
      ensures fresh(b) && b.name == name && b.Extents() == Extents()
    {
      b := new Block(name, depth, width, height);
    }

    /** `rotate(axis)` in place, with axis 0 exchanging width and height as intended;
        an unknown axis raises and leaves the block alone. The volume is kept, and
        the same axis twice restores the block. */
    method Rotate(axis: int) returns (r: Result<()>)
      modifies this
      ensures r.Ok? <==> 0 <= axis < 3
      ensures r.Ok? ==> Extents() == old(Extents()).Rotated(axis) && Ok(Extents()) == RotatedIntended(old(Extents()), axis)
      ensures r.Err? ==> r.error == BadAxis && Extents() == old(Extents())
      ensures Extents().Volume() == old(Extents().Volume())
    {
      if axis == 0 {
        width, height := height, width;
      } else if axis == 1 {
        depth, height := height, depth;
      } else if axis == 2 {
        depth, width := width, depth;
      } else {
        return Err(BadAxis);
      }
      ghost var s := old(Extents());
      RotatedFixesAxis(s, axis);
      RotatedKeepsVolume(s, axis);
      assert Extents().At(0) == s.Rotated(axis).At(0) && Extents().At(1) == s.Rotated(axis).At(1);
      assert Extents().At(2) == s.Rotated(axis).At(2);
      r := Ok(());
    }
  }

  /** Rotating a block twice about the same axis gives back its extents. */
  method RotateTwice(b: Block, axis: int)
    modifies b
    ensures b.Extents() == old(b.Extents())
  {
    var r1 := b.Rotate(axis);
    var r2 := b.Rotate(axis);
    if r1.Ok? {
      RotatedTwice(old(b.Extents()), axis);
    }
  }

  /** A request of the prototype: the blocks to pack. */
  datatype Request = Request(blocks: seq<Block>) {
    function NBlocks(): (n: nat)
      ensures n == |blocks|
    {
      |blocks|
    }
  }
}
