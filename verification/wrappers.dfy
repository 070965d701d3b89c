/** Failure-carrying datatypes shared by the model: Go's `(value, error)`
    pairs become a `Result`, and an optional value becomes an `Option`. */
module Wrappers {

  datatype Option<+T> = None | Some(value: T)

  datatype Result<+R, +E> = Success(value: R) | Failure(error: E)
}
