/** Optional values and failure carriers used in place of Java's null,
    Optional and thrown exceptions. */
module Wrappers {

  /** A nullable field or an `Optional` result. */
  datatype Option<+T> = None | Some(value: T) {
    /** The value, or `default` when absent (Java's `null` replaced by a default). */
    function GetOr(default: T): T {
      match this
      case Some(v) => v
      case None => default
    }
  }

  /** A call that either returns a value or throws. */
  datatype Result<+R, +E> = Success(value: R) | Failure(error: E)

  /** A `void` call that either returns normally or throws. */
  datatype Outcome<+E> = Pass | Fail(error: E)
}
