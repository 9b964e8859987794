/** Optional values and results shared by the two modules. */
module Wrappers {

  /** An optional value; as a table cell, `None` is the missing-value marker. */
  datatype Option<+T> = None | Some(value: T)

  /** The outcome of an operation that can raise an exception. */
  datatype Result<+R, +E> = Success(value: R) | Failure(error: E)
}
