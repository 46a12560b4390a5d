/** Option and Result, the two failure-carrying shapes used by every module of the model. */
module Wrappers {

  /** An absent value (`undefined`, or `null` where the source collapses the two with `??`) or a present one. */
  datatype Option<+T> = None | Some(value: T) {
    function GetOr(default: T): T {
      match this
      case Some(v) => v
      case None => default
    }
  }

  /** The outcome of an operation that either produces a value or stops with an error. */
  datatype Result<+T, +E> = Success(value: T) | Failure(error: E)
}
