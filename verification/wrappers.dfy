/** The result type used for every operation that the client's collaborators
    may abort with an exception. */
module Wrappers {

  datatype Result<+R, +E> = Success(value: R) | Failure(error: E)
}
