/** A success-or-error value, standing for a Python function that either returns or raises. */
module Wrappers {

  datatype Result<+T, +E> = Success(value: T) | Failure(error: E)
}
