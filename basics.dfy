/** Failure-carrying wrappers shared by the other modules. */
module Basics {

  datatype Option<T> = None | Some(value: T)

  datatype Result<T, E> = Success(value: T) | Failure(error: E)
}
