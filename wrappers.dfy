/** Option and Result, used for the nullable target score and for the
    exceptions the pipeline raises. */
module Wrappers {
  datatype Option<+T> = None | Some(value: T)

  datatype Result<+T, +E> = Success(value: T) | Failure(error: E)
}
