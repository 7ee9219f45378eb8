/** Optional values: a JSON field that may be absent. */
module Wrappers {

  datatype Option<+T> = None | Some(value: T) {

    /** The value when present, otherwise the given default. */
    function GetOr(default: T): T {
      match this
      case Some(v) => v
      case None => default
    }
  }

  /** `a || b` on two optional JSON values that are truthy whenever present
      (arrays and objects): the first one present wins. */
  function OrElse<T>(a: Option<T>, b: Option<T>): Option<T> {
    if a.Some? then a else b
  }

  /** The outcome of an operation that can fail with a message. */
  datatype Result<+T> = Success(value: T) | Failure(error: string)
}
