/** Wrappers used by the Mealy machine model: `Option` for
    a value that may be absent (the machine's initial state) and `Result` for
    an operation that either succeeds or reports one error of the model's
    error taxonomy. */
module Wrappers {

  /** A value that may be absent. */
  datatype Option<+T> = None | Some(value: T)

  /** Either a success value or an error value. */
  datatype Result<+R, +E> = Success(value: R) | Failure(error: E)
}
