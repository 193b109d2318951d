/** Failure modes of the forward-kinematics code and a result wrapper for them. */
module Errors {

  /** The exceptions the Python code can raise on malformed input. */
  datatype Error =
    | IndexOutOfRange    // a joint angle or DH entry is indexed past the end of its list
    | DimensionMismatch  // the length assertion at the entry point fails
    | DivisionByZero     // the penalty of a test-case file without cases divides by zero

  datatype Result<T> = Success(value: T) | Failure(error: Error)
}
