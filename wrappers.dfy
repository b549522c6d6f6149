/** Failure-carrying values: Go's `(value, error)` pairs and absent map entries. */
module Wrappers {

  /** An optional value; `None` stands for Go's nil. */
  datatype Option<T> = None | Some(value: T)

  /** Either a value or an error, as a Go function returning `(T, error)`. */
  datatype Result<T, E> = Success(value: T) | Failure(error: E)
}
