/** Failure values of the geometry module.

    The Python module raises `ValueError` for every failed validation; the
    messages differ, and each distinct message becomes one constructor here.
    Two more constructors stand for the errors numpy itself raises when an
    array operation gets incompatible shapes. */
module Errors {

  datatype Error =
    | ListNotLength3          // a list handed to the 3-vector builder has the wrong length
    | VectorNot3x1            // an array that should be a 3x1 column is not
    | VectorNot4x1            // an array that should be a 4x1 column is not
    | MatrixNot3x3
    | MatrixNot4x4
    | NegativeDetTolerance    // the determinant tolerance is negative
    | NotARotation            // the determinant is too far from 1
    | NegativeAngleTolerance  // the angular tolerance of the line routines is negative
    | BadReference            // the reference vector of the concurrent-axes twist is rejected
    | BroadcastMismatch       // numpy: operands could not be broadcast together
    | ConcatenateMismatch     // numpy: array dimensions do not match for concatenation

  /** The outcome of a routine that returns a value or raises. */
  datatype Result<+T> = Ok(value: T) | Err(error: Error) {
    predicate IsFailure() {
      Err?
    }

    function PropagateFailure<U>(): Result<U>
      requires Err?
    {
      Err(error)
    }

    function Extract(): T
      requires Ok?
    {
      value
    }
  }

  /** The outcome of a validator, which returns nothing or raises. */
  datatype Check = Pass | Fail(error: Error) {
    predicate IsFailure() {
      Fail?
    }

    function PropagateFailure<U>(): Result<U>
      requires Fail?
    {
      Err(error)
    }
  }
}
