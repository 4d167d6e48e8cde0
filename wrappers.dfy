/** Option and Result values: the model's stand-ins for `undefined` and for thrown errors. */
module Wrappers {

  /** An optional value; `None` plays JavaScript's `undefined`. */
  datatype Option<+T> = None | Some(value: T) {
    function GetOr(default: T): T {
      match this
      case Some(v) => v
      case None => default
    }
  }

  /** The outcome of an operation that may throw: `Failure` carries the error's message. */
  datatype Result<+R, +E> = Success(value: R) | Failure(error: E)

  /** A string that is set and not empty: JavaScript's truthiness test on an
      optional string (`if (v)`, and `v !== undefined && v !== ''`). */
  predicate Given(o: Option<string>)
  {
    o.Some? && o.value != ""
  }
}
