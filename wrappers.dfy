/** Optional values and outcomes that may fail with a message. */
module Wrappers {

  /** A value that may be absent: a JavaScript property that is undefined or null. */
  datatype Option<+T> = None | Some(value: T)

  /** The outcome of an operation that either yields a value or throws an error. */
  datatype Result<+R, +E> = Success(value: R) | Failure(error: E) {

    /** Applies `f` to a successful value and keeps a failure as it is. */
    function MapValue<U>(f: R -> U): (r: Result<U, E>)
      ensures r.Success? <==> Success?
      ensures Success? ==> r.value == f(value)
      ensures Failure? ==> r.error == error
    {
      match this
      case Success(v) => Success(f(v))
      case Failure(e) => Failure(e)
    }
  }
}
