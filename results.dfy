/** The exceptions the portfolio routines raise, as values. */
module Results {

  /** Either the computed value or the error the source would raise. */
  datatype Result<T, E> = Ok(value: T) | Err(error: E)
}
