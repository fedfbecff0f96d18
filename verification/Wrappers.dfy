/** Values that stand for C#'s null references and for exceptions that escape a call. */
module Wrappers {

  /** A reference that may be null. */
  datatype Nullable<+T> = Null | Some(value: T)

  /** The result of a call that either returns a value or lets an exception escape. */
  datatype Outcome<+T> = Ok(value: T) | Thrown
}
