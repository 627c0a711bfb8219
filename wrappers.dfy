/** Option and Result, shared by every module of the model. */
module Wrappers {

  /** Go's "value or nil": None stands for a nil pointer, slice or error. */
  datatype Option<+T> = None | Some(value: T)

  /** A Go `(value, error)` pair whose value is meaningful only when the error is nil. */
  datatype Result<+T, +E> = Success(value: T) | Failure(error: E)
}

/** Raw bytes as Go's `[]byte` holds them. */
module Bytes {

  newtype byte = x: int | 0 <= x < 256

  type Bytes = seq<byte>
}
