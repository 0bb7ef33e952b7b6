/** The two result shapes the models below share: a value that may be absent
    (Go's nil pointer or missing map entry) and a call that may return an error. */
module Wrappers {
  datatype Option<+T> = None | Some(value: T)

  datatype Result<+T, +E> = Success(value: T) | Failure(error: E)
}
