/** Failure values for the places where the training script raises instead of returning. */
module Common {

  /** The Python exceptions the modelled code can raise. */
  datatype Error =
    | ShapeInvalid     // RuntimeError from `Tensor.view` when the element count does not match
    | ZeroDivision     // ZeroDivisionError from `/` or `%` with a zero right operand
    | AssertionFailed  // AssertionError from an `assert` statement

  datatype Result<+T> = Ok(value: T) | Err(error: Error)
}
