/** The two datatypes the other modules share. */
module Wrappers {

  datatype Option<+T> = None | Some(value: T)

  /** A call that either returns or raises. */
  datatype Result<+T, +E> = Success(value: T) | Failure(error: E)
}
