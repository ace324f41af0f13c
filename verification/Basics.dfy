/** The two wrapper types the whole model shares. */
module Basics {
  datatype Option<+T> = None | Some(value: T)

  /** A value, or the message of the error the source raises. */
  datatype Result<+T> = Success(value: T) | Failure(message: string)
}
