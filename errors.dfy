/** The ways a chaos game can fail, one kind per `raise` in ChaosGame.py or per
    failure of a library call it makes, and the result type that carries them. */
module Errors {

  datatype Error =
    | NotAnInteger          // ValueError: the corner count is not an int
    | ScaleTooLarge         // ValueError: the scale exceeds 1
    | DivisionByZero        // ZeroDivisionError: 1.0 / 0 for the uniform distribution
    | NegativeSize          // numpy ValueError: an array of negative length is requested
    | MissingProbabilities  // ValueError: two or more probabilities are missing
    | ExcessProbabilities   // IndexError: more probabilities than corners
    | BadSum                // ValueError: the probabilities do not sum to 1
    | EmptyStream           // IndexError: pos[0] is written into an empty position array

  /** Either a value or the error that was raised instead of producing it. */
  datatype Result<+T> = Success(value: T) | Failure(error: Error) {

    predicate IsFailure() {
      Failure?
    }

    function PropagateFailure<U>(): Result<U>
      requires Failure?
    {
      Failure(error)
    }

    function Extract(): T
      requires Success?
    {
      value
    }
  }
}
