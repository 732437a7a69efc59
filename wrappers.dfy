/** Small value wrappers shared by every module: optional values, results,
    the outcome of an awaited promise, and JavaScript truthiness of an
    optional string. */
module Wrappers {

  datatype Option<+T> = None | Some(value: T) {
    /** The value, or `default` when absent (JavaScript `x ?? default`). */
    function GetOr(default: T): T {
      match this
      case Some(v) => v
      case None => default
    }
  }

  datatype Result<+R, +E> = Success(value: R) | Failure(error: E)

  /** How an awaited promise settled: with a value, or rejected. */
  datatype Async<+T> = Resolved(value: T) | Rejected

  /** JavaScript truthiness of an optional string: `undefined` and `""`
      are falsy, every other string is truthy. */
  predicate IsTruthy(s: Option<string>) {
    s.Some? && s.value != ""
  }
}
