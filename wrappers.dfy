/** Optional values and results with an error, shared by the other modules. */
module Wrappers {

  /** An input box that may be empty (Python's None). */
  datatype Option<+T> = None | Some(value: T)

  /** The outcome of a computation that may be refused with an error. */
  datatype Result<+R, +E> = Success(value: R) | Failure(error: E)
}
