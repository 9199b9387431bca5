/** Result types shared by the registry and the compiler facade. */
module Wrappers {

  datatype Option<+T> = None | Some(value: T)

  /** A computation that either produced a value or signalled an error (a thrown exception). */
  datatype Result<+R, +E> = Success(value: R) | Failure(error: E)

  /** A computation with no value that either completed or signalled an error. */
  datatype Outcome<+E> = Pass | Fail(error: E)
}
