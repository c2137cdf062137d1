/** Failure-carrying datatypes shared by every module of the model: Go's
    `(value, error)` return pairs become `Result`, nil-able inputs become `Option`. */
module Wrappers {

  datatype Option<+T> = None | Some(value: T)

  datatype Result<+T, +E> = Success(value: T) | Failure(error: E)
}
