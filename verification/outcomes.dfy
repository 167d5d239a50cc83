/** Option and Result values for the encoder model. The source signals fatal
    conditions by throwing; here a fatal condition is the `Failure` arm of a
    `Result`, and the recoverable conditions (no free input buffer, no encoded
    data ready) stay ordinary values of the `Success` arm. */
module Outcomes {

  datatype Option<+T> = None | Some(value: T)

  datatype Result<+T, +E> = Success(value: T) | Failure(error: E) {

    predicate IsFailure() {
      Failure?
    }

    function PropagateFailure<U>(): Result<U, E>
      requires Failure?
    {
      Failure(error)
    }

    function Extract(): T
      requires Success?
    {
      value
    }
  }
}
