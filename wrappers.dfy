/** Failure-carrying values shared by every module of the model: Go's
    `(value, error)` pairs become `Result`, a nil-able pointer becomes `Option`. */
module Wrappers {

  datatype Option<+T> = None | Some(value: T)

  /** A Go `(T, error)` return: `Failure` carries the error text. */
  datatype Result<+T> = Success(value: T) | Failure(error: string)
}
