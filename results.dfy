/** Value wrappers for the places where the C# code has null references or throws. */
module Results {

  /** A possibly-null reference: None plays the part of C#'s null. */
  datatype Option<+T> = None | Some(value: T) {
    function GetOr(default: T): T {
      match this
      case Some(v) => v
      case None => default
    }
  }

  /** The value a call returns, or the exception it throws instead. */
  datatype Result<+T, +E> = Success(value: T) | Failure(error: E)

  /** Completion of a void call: normal return, or the exception it throws. */
  datatype Outcome<+E> = Pass | Fail(error: E)
}
