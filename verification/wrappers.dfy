/** Optional values and results with an error case, standing in for the
    nullable fields, the `??` defaulting operator and the thrown errors of
    the classifier. */
module Wrappers {

  /** A value that may be absent: `null`/`undefined` in the classifier. */
  datatype Option<+T> = None | Some(value: T) {

    /** The contained value, or `default` when absent: the `??` operator,
        which replaces only an absent value (a present `0` is kept). */
    function GetOr(default: T): T {
      match this
      case Some(v) => v
      case None => default
    }
  }

  /** The outcome of an operation that may throw. */
  datatype Result<+T, +E> = Success(value: T) | Failure(error: E)
}
