/** Option, Result and Outcome: the model's stand-ins for C# null references and exceptions. */
module Wrappers {

  /** A nullable reference: `None` is `null`. */
  datatype Option<+T> = None | Some(value: T)

  /** A value, or the exception that was raised instead of returning one. */
  datatype Result<+R, +E> = Success(value: R) | Failure(error: E)

  /** A statement that either completed or raised an exception. */
  datatype Outcome<+E> = Pass | Fail(error: E)

  function GetOr<T>(o: Option<T>, default: T): T
  {
    match o
    case Some(v) => v
    case None => default
  }
}
