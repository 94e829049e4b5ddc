/** Option and Result, the two failure-carrying wrappers the model uses. */
module Wrappers {

  /** An optional value: a TypeScript property that may be `undefined`. */
  datatype Option<+T> = None | Some(value: T) {

    /** The wrapped value, or `default` when there is none (`x ?? default`). */
    function GetOr(default: T): T {
      match this
      case Some(v) => v
      case None => default
    }
  }

  /** A value or an error: a computation that may throw. */
  datatype Result<+T, +E> = Success(value: T) | Failure(error: E)
}
