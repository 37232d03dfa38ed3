/**
 * Optional values (a JavaScript value that may be `null` or `undefined`) and
 * the outcome of a check that either lets a request go out or stops with a
 * message.
 */
module Wrappers {
  datatype Option<T> = None | Some(value: T)
  {
    function GetOr(default: T): T
    {
      if Some? then value else default
    }
  }

  datatype Result<T, E> = Success(value: T) | Failure(error: E)
}
