/** The result type used for the one error the core can raise. */
module Wrappers {

  datatype Result<+T, +E> = Success(value: T) | Failure(error: E)
}
