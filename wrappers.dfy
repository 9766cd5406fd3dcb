/** Kotlin's nullable values, `Result<T>` and thrown exceptions, as datatypes. */
module Wrappers {

  /** A nullable value: `null` is `None`. */
  datatype Option<+T> = None | Some(value: T) {

    /** Kotlin's elvis operator `this ?: default`. */
    function GetOr(default: T): T {
      match this
      case Some(v) => v
      case None => default
    }
  }

  /** A thrown `Throwable`, observed through its (nullable) `message`. */
  datatype Exception = Exception(message: Option<string>)

  /** Kotlin's `Result<T>`: a value or the exception that was caught. */
  datatype Result<+T> = Success(value: T) | Failure(exception: Exception)
}
