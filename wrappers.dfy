/** Option and Result: a JavaScript `null`/`undefined` and a thrown exception,
    written as values. */
module Wrappers {
  datatype Option<+T> = None | Some(value: T)

  datatype Result<+T, +E> = Success(value: T) | Failure(error: E)
}
