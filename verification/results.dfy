/** The outcome of a call that either commits a new value or reverts with an error. */
module Results {

  datatype Result<+T, +E> = Ok(value: T) | Err(error: E)

}
