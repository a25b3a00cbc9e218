/** Datatypes for values that may be absent or may have failed, shared by the model. */
module Wrappers {

  /** `None` doubles as JavaScript's `undefined` where a property may be absent. */
  datatype Option<+T> = None | Some(value: T)

  /** The outcome of an operation that may throw: a value or the error it raised. */
  datatype Result<+R, +E> = Success(value: R) | Failure(error: E)
}
