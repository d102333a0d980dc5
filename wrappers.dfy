/** Failure-compatible wrappers used throughout the model: a Go `(T, error)`
    pair becomes a `Result<T, E>`, a nilable value or a bare `error` an `Option`. */
module Wrappers {

  datatype Option<+T> = None | Some(value: T)

  datatype Result<+T, +E> = Success(value: T) | Failure(error: E)
}
