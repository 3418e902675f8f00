/** Option, Result and Outcome datatypes for the error paths of the report model. */
module Wrappers {

  /** An optional value: `None` where the source yields no usable value. */
  datatype Option<+T> = None | Some(value: T)

  /** A value or the error the source raises instead of returning it. */
  datatype Result<+R, +E> = Success(value: R) | Failure(error: E)

  /** Completion of an operation that returns nothing but may raise an error. */
  datatype Outcome<+E> = Pass | Fail(error: E)
}
