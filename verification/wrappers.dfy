/** Java's nullable references and thrown exceptions, as values. */
module Wrappers {

  /** A value that may be absent: `None` stands for Java's `null` or an empty `Optional`. */
  datatype Option<+T> = None | Some(value: T)

  /** The outcome of a call that either returns normally or throws. */
  datatype Result<+T, +E> = Success(value: T) | Failure(error: E)

  /** The exceptions the services throw, keyed by their Java class. */
  datatype Exception =
    | IllegalArgument(message: string)
    | IllegalState(message: string)
    | Runtime(message: string)
}
