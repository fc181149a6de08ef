/** Failure-compatible wrappers shared by the model: an optional value and a
    value-or-error result, standing in for Go's nil pointers and `(T, error)`
    return pairs. */
module Wrappers {

  /** `None` plays the role of a nil pointer or an absent value. */
  datatype Option<+T> = None | Some(value: T) {

    /** The wrapped value, or `default` when there is none. */
    function GetOr(default: T): T {
      match this
      case Some(v) => v
      case None => default
    }
  }

  /** A Go `(value, err)` pair where exactly one side is meaningful. */
  datatype Result<+T, +E> = Success(value: T) | Failure(error: E)
}
