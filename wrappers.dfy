/** Nullable values and failing results, shared by every module of the model. */
module Wrappers {

  /** A Kotlin nullable value: `None` stands for `null`. */
  datatype Option<+T> = None | Some(value: T) {
    /** Kotlin's `?:` operator: the value, or `default` when it is null. */
    function GetOr(default: T): T {
      match this
      case Some(v) => v
      case None => default
    }
  }

  /** The value a Kotlin function returns, or the exception it throws. */
  datatype Result<+R, +E> = Success(value: R) | Failure(error: E)
}
