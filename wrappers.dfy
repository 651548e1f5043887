/** Option and Result, shared by every module of the model. */
module Wrappers {
  datatype Option<T> = None | Some(value: T)

  datatype Result<T, E> = Success(value: T) | Failure(error: E)

  /** The outcome of a statement that returns nothing but may raise. */
  datatype Outcome<E> = Pass | Fail(error: E)
}
