/** The exceptions the packing core raises, as values. */
module Failures {

  /** NoStablePointFound and NoStackablePointFound come from the placement engine;
      TooLargeBlock is the ValueError of first-fit bin packing; EmptyPacking is the
      IndexError raised when a first-fit packing opened no container at all;
      NoContainerVolume is the AttributeError of reading a volume the request does not
      define; DivisionByZero is the ZeroDivisionError of dividing by an empty volume;
      BadAxis is the ValueError of rotating a block about an unknown axis; EmptyGrid is
      the IndexError of measuring an empty nested-list grid; EmptyDraw is the IndexError
      of `random.choice` or `random.choices` drawing from an empty range or list. */
  datatype Error =
    | NoStablePointFound | NoStackablePointFound | TooLargeBlock | EmptyPacking
    | NoContainerVolume | DivisionByZero | BadAxis | EmptyGrid | EmptyDraw

  datatype Result<+T> = Ok(value: T) | Err(error: Error) {
    predicate IsFailure() { Err? }

    function PropagateFailure<U>(): Result<U>
      requires Err?
    {
      Err(error)
    }

    function Extract(): T
      requires Ok?
    {
      value
    }
  }

  datatype Option<+T> = None | Some(value: T)
}
