/** Failure-carrying values shared by the modules of this model. */
module Wrappers {

  /** An optional value, as `std::optional`. */
  datatype Option<+T> = None | Some(value: T) {

    /** The value, or `default` when there is none (`value_or`). */
    function GetOr(default: T): (r: T)
      ensures Some? ==> r == value
      ensures None? ==> r == default
    {
      match this
      case Some(v) => v
      case None => default
    }
  }

  /** A value or the error that replaced it (a thrown exception). */
  datatype Result<+T, +E> = Success(value: T) | Failure(error: E)

  /** Completion without a value, or the error that aborted it. */
  datatype Outcome<+E> = Pass | Fail(error: E)
}
