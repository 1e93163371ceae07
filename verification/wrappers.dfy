/** Option, Result and Outcome: the shapes of Swift optionals, throwing calls
    that return a value, and throwing calls that return nothing. */
module Wrappers {

  datatype Option<+T> = None | Some(value: T)

  datatype Result<+R, +E> = Success(value: R) | Failure(error: E)

  datatype Outcome<+E> = Pass | Fail(error: E)
}
