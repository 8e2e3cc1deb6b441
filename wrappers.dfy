/** Option and Result: the model's stand-ins for C#'s null and for thrown exceptions. */
module Wrappers {

  /** A value that may be absent (a C# reference or nullable that may be null). */
  datatype Option<+T> = None | Some(value: T) {
    function GetOr(default: T): T {
      match this
      case Some(v) => v
      case None => default
    }
  }

  /** Either a value or the error the source would throw instead of returning it. */
  datatype Result<+R, +E> = Success(value: R) | Failure(error: E)
}
