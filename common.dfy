/** Values shared by every part of the Boombera model. */
module Common {

  /** Ruby's nil-or-value: `None` stands for nil. */
  datatype Option<T> = None | Some(value: T)

  /** The two exceptions Boombera raises: `Boombera::VersionMismatch`, with its
      message, and `Boombera::InvalidMapping`. */
  datatype Error = VersionMismatch(message: string) | InvalidMapping

  /** A value, or the exception raised instead of returning it. */
  datatype Result<T> = Ok(value: T) | Err(error: Error)

  /** A step that returns nothing useful, or raises. */
  datatype Outcome = Pass | Fail(error: Error)
}
