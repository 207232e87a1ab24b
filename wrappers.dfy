/** Option and Result values standing in for Go's nil pointers and (value, error) pairs. */
module Wrappers {

  /** A possibly-nil pointer. */
  datatype Option<+T> = None | Some(value: T)

  /** A (value, error) pair in which exactly one half is meaningful. */
  datatype Result<+T, +E> = Ok(value: T) | Err(error: E)

  /** The result of an SDK call whose output pointer the caller tests for nil:
      an output, a nil output without an error, or an error. */
  datatype Reply<+T> = Done(value: T) | NilOutput | Failed(message: string)
}
