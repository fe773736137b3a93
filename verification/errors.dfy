/** The interpreter's three error kinds (stimpl/errors.py) and a result
    type for operations that can raise one of them. */
module Errors {

  /** InterpSyntaxError, InterpTypeError and InterpMathError; their message
      text is not modelled. */
  datatype ErrorKind = SyntaxError | TypeError | MathError

  /** The value of an operation that may raise an interpreter error. */
  datatype Result<+T> = Success(value: T) | Failure(error: ErrorKind)
}
