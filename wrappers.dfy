/** Option and Outcome, the stand-ins for Java's nullable references and
    for the exceptions the modelled code throws at its caller. */
module Wrappers {

  /** A Java reference that may be null: `None` is null. */
  datatype Option<+T> = None | Some(value: T) {
    function GetOr(default: T): T {
      match this
      case Some(v) => v
      case None => default
    }

    /** `x == null ? other : x`. */
    function OrElse(other: Option<T>): (r: Option<T>)
      ensures Some? ==> r == this
      ensures None? ==> r == other
    {
      if Some? then this else other
    }
  }

  /** The exceptions the modelled code signals synchronously to its caller. */
  datatype Fault =
    | IllegalArgument     // java.lang.IllegalArgumentException
    | IllegalThreadState  // java.lang.IllegalThreadStateException
    | NullPointer         // java.lang.NullPointerException

  /** A call that either returns normally or throws. */
  datatype Outcome = Pass | Fail(error: Fault)
}
