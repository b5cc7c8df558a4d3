/** Helper datatypes shared by the whole model. */
module Wrappers {

  /** A value that may be absent: C#'s `null`, `FirstOrDefault` finding nothing. */
  datatype Option<T> = None | Some(value: T)

  /** The exceptions the repository's services throw, by .NET class. */
  datatype Error =
    | ArgumentError(message: string)
    | InvalidOperation(message: string)
    | Overflow(message: string)

  /** The result of an operation that returns a value or throws. */
  datatype Result<T> = Ok(value: T) | Fail(error: Error)

  /** The result of a void operation that may throw. */
  datatype Outcome = Done | Throws(error: Error)
}
