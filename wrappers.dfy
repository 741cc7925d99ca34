/** Optional values and results with an error, as the handlers below use them. */
module Wrappers {

  /**
   * An optional value. Each use says which JavaScript values `None` stands
   * for: `undefined`, `null`, or either where the code treats them alike.
   */
  datatype Option<+T> = None | Some(value: T) {
    function GetOr(default: T): T {
      match this
      case Some(v) => v
      case None => default
    }
  }

  /** The outcome of a handler that may throw: `Failure` carries what was thrown. */
  datatype Result<+R, +E> = Success(value: R) | Failure(error: E)
}
