/** Result types standing in for Go's `(value, error)` returns. Errors are
    carried as their `Error()` text, which is all the program ever uses. */
module Outcomes {

  datatype Option<+T> = None | Some(value: T)

  /** A Go call that returns a value and an error. */
  datatype Result<+T> = Ok(value: T) | Err(error: string)

  /** A Go call that returns only an error (nil on success). */
  datatype Status = Success | Failure(error: string)

  /** The error a step reports, if any. */
  function StatusError(s: Status): Option<string> {
    match s
    case Success => None
    case Failure(msg) => Some(msg)
  }

  function ResultError<T>(r: Result<T>): Option<string> {
    match r
    case Ok(_) => None
    case Err(msg) => Some(msg)
  }
}
