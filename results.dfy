/** The exceptions the modelled Python code can raise, and the values that carry them. */
module Results {

  /** The Python exception classes that the core raises or lets escape. */
  datatype Error =
    | ValueError         // a setter or a bytearray store rejected its value
    | RuntimeError       // wrong chip, or temperature read in continuous mode
    | ZeroDivisionError  // an average over zero samples

  /** A value, or the exception raised instead of returning it. */
  datatype Result<+T> = Ok(value: T) | Err(error: Error)

  /** A value that may be absent. */
  datatype Option<+T> = None | Some(value: T)

  /** The outcome of a statement that returns nothing but may raise. */
  datatype Outcome = Pass | Fail(error: Error)
}
