/** Values shared by every part of the model: C# nullable references and the
    exceptions the library's constructors and methods throw. */
module Wrappers {

  /** A C# value that may be null (`string?`, `DateRange?`, `bool?`, ...). */
  datatype Nullable<+T> = Null | NonNull(value: T) {

    /** The value, or `fallback` when null (C#'s `??` operator). */
    function ValueOr(fallback: T): T {
      match this
      case NonNull(v) => v
      case Null => fallback
    }
  }

  /** The exceptions the modelled code throws, with the message and parameter name it passes. */
  datatype Exception =
    | InvalidOperationException(message: string)
    | ArgumentException(message: string, paramName: string)
    | NotSupportedException(message: string)
    | NullReferenceException

  /** The outcome of an operation that either returns a value or throws. */
  datatype Result<+T> = Ok(value: T) | Err(error: Exception)
}
