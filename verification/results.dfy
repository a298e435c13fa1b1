/** The outcome of a step that either produces a value or fails with an error
    (a rejected promise or a thrown exception in the generator). */
module Results {

  datatype Result<+T, +E> = Ok(value: T) | Err(error: E)
}
