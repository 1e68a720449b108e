/** Small value wrappers shared by the whole model. */
module Wrappers {

  /** A value that may be absent (`undefined`/`null` collapsed into one case). */
  datatype Option<+T> = None | Some(value: T)

  /** The outcome of an operation that can fail with an error message or value. */
  datatype Result<+R, +E> = Ok(value: R) | Err(error: E)

  /**
   * An optional, nullable property `x?: T | null`: it can be left out
   * (`undefined`), be `null`, or hold a value.  The builders distinguish
   * these three on some fields and not on others.
   */
  datatype Nullable<+T> = Absent | Null | Present(value: T)
}
