/** Small failure-carrying datatypes used across the model. */
module Wrappers {

  /** A value that may be absent (Python's `None`). */
  datatype Option<+T> = None | Some(value: T)

  /** The outcome of a step that either completes or raises an exception. */
  datatype Outcome<+E> = Pass | Fail(error: E)

  /** `x or []` for a listing that may come back as `None`. */
  function OrEmpty<T>(o: Option<seq<T>>): seq<T>
  {
    match o
    case None => []
    case Some(s) => s
  }
}
