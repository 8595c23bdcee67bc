/** Absence and failure values shared by the modules of the explorer model. */
module Wrappers {

  /** `null`/`undefined` in the TypeScript source, or a value. */
  datatype Option<+T> = None | Some(value: T)

  /** A settled promise: a value, or the error it was rejected with. */
  datatype Result<+T, +E> = Success(value: T) | Failure(error: E)
}
