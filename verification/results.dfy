/** The outcome of an operation that can end the process through the
    fail-fast allocation path instead of returning a buffer. */
module Results {

  datatype Result<+T, +E> = Success(value: T) | Failure(error: E)

}
