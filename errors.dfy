/** Error kinds raised by the gradient generator, and the result type that carries them. */
module Errors {

  /** One case per exception the source raises. */
  datatype Error =
    | DigestTooShort     // IndexError: the palette indexes digest bytes 2 and 3
    | XTooBig            // ValueError("x is too big") from the node constructor
    | YTooBig            // ValueError("y is too big") from the node constructor
    | XNormOutOfRange    // ValueError("x_norm must be between 0 and 1")
    | YNormOutOfRange    // ValueError("y_norm must be between 0 and 1")
    | LengthMismatch     // ValueError("factors and colors must have the same length")
    | ZeroDivision       // ZeroDivisionError from a Python `/`

  datatype Result<+T> = Ok(value: T) | Err(error: Error)
}
