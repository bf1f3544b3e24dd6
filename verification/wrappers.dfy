/** Failure-compatible wrappers used throughout the model: an optional value and
    a success-or-error result standing in for a raised Python exception. */
module Wrappers {

  datatype Option<+T> = None | Some(value: T) {

    /** The wrapped value, or `default` when there is none (Python's `d.get(k, default)`). */
    function GetOr(default: T): T {
      match this
      case Some(v) => v
      case None => default
    }
  }

  datatype Result<+R> = Success(value: R) | Failure(error: string) {

    predicate IsFailure() {
      Failure?
    }

    function PropagateFailure<U>(): Result<U>
      requires Failure?
    {
      Failure(error)
    }

    function Extract(): R
      requires Success?
    {
      value
    }
  }

  /** `d[key]` on a value that may be absent: Python's `KeyError` names the key. */
  function Need<T>(o: Option<T>, key: string): (r: Result<T>)
    ensures r.Success? <==> o.Some?
    ensures o.Some? ==> r.value == o.value
    ensures o.None? ==> r.error == "'" + key + "'"
  {
    match o
    case Some(v) => Success(v)
    case None => Failure("'" + key + "'")
  }
}
