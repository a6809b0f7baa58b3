/** Failure-carrying wrappers shared by the modules of this project. */
module Results {

  /** A value that may be absent: JavaScript's `undefined` where the source uses `?.`. */
  datatype Option<+T> = None | Some(value: T)

  /** The outcome of a step that can throw: a value, or the error it raised. */
  datatype Result<+T, +E> = Success(value: T) | Failure(error: E)

  /** The outcome of a step that returns nothing but can throw. */
  datatype Outcome<+E> = Pass | Fail(error: E)
}
