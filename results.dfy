/** Go's `(value, error)` return pairs, as a value-or-error datatype. */
module Results {

  datatype Result<T, E> = Ok(value: T) | Err(error: E)
}
