/** Option, Result and Outcome: the helper datatypes shared by every module of the model. */
module Wrappers {

  /** Kotlin's nullable `T?`. */
  datatype Option<+T> = None | Some(value: T) {

    /** Kotlin's elvis operator `this ?: default`. */
    function GetOr(default: T): (r: T)
      ensures Some? ==> r == value
      ensures None? ==> r == default
    {
      match this
      case Some(v) => v
      case None => default
    }
  }

  /** The value or the failure of a call; `E` is what the failure carries. */
  datatype Result<+T, +E> = Success(value: T) | Failure(error: E)

  /** The outcome of a call that returns nothing. */
  datatype Outcome<+E> = Pass | Fail(error: E)
}
