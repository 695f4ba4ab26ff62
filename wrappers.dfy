/** Failure-carrying values shared by the other modules. */
module Wrappers {

  /** An optional value: the model of Python's `None` versus a present value. */
  datatype Option<+T> = None | Some(value: T)

  /** The outcome of a step that may raise: either its value or the error it raised. */
  datatype Result<+T, +E> = Ok(value: T) | Err(error: E)
}
