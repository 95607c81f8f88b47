/** The failure side of the library: the `ValueError`s it raises, and the
    Option/Result wrappers the model uses in place of exceptions and
    omitted arguments. */
module Outcome {

  /** The three `ValueError`s raised by the rotation utilities and the
      coordinate frame. */
  datatype Error =
    | ZeroVector                      // an axis shorter than 1e-10
    | NotThreeByThree                 // a matrix argument whose shape is not (3, 3)
    | UnsupportedOrder(order: string) // an Euler order the code does not handle

  /** The text each error carries; the order error ends with the order it
      rejects. */
  function Message(e: Error): (s: string)
    ensures |s| > 0
    ensures e.UnsupportedOrder? ==> |s| >= |e.order| && s[|s| - |e.order|..] == e.order
  {
    match e
    case ZeroVector => "Zero vector cannot be normalized"
    case NotThreeByThree => "Rotation matrix must be 3x3"
    case UnsupportedOrder(order) => "Unsupported rotation order: " + order
  }

  /** Distinct errors carry distinct messages: the whole message text
      determines the error. */
  lemma MessageDeterminesError(e1: Error, e2: Error)
    ensures Message(e1) == Message(e2) <==> e1 == e2
  {
    if Message(e1) == Message(e2) {
      assert Message(e1)[0] == Message(e2)[0];
      if e1.UnsupportedOrder? && e2.UnsupportedOrder? {
        var p := "Unsupported rotation order: ";
        assert e1.order == Message(e1)[|p|..];
        assert e2.order == Message(e2)[|p|..];
      }
    }
  }

  /** An omitted optional argument (`None` in Python). */
  datatype Option<+T> = None | Some(value: T) {

    /** The argument if given, otherwise the default. */
    function GetOr(default: T): T {
      match this
      case Some(v) => v
      case None => default
    }
  }

  /** A computation that returns a value or raises one of the errors. */
  datatype Result<+T> = Success(value: T) | Failure(error: Error) {

    predicate IsFailure() {
      Failure?
    }

    function PropagateFailure<U>(): Result<U>
      requires Failure?
    {
      Failure(error)
    }

    function Extract(): T
      requires Success?
    {
      value
    }
  }
}
