/** Helper datatypes shared by the model. */
module Wrappers {

  /** A value that may be absent: Java's nullable reference. */
  datatype Option<+T> = None | Some(value: T)

  /** The outcome of an operation that may throw instead of returning. */
  datatype Outcome<+E> = Pass | Fail(error: E)
}
