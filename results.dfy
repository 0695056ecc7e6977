/** Outcomes of the operations in hosted.py: a value, or the Python exception that ends the call. */
module Results {

  datatype Option<T> = None | Some(value: T)

  /** The exceptions the modelled code can raise. */
  datatype Error =
    | IndexError  // indexing an empty string, popping an empty list, choosing from an empty list
    | TypeError   // subscripting an object that does not support it

  datatype Result<T> = Ok(value: T) | Err(error: Error)

  /** How a handler body ended. */
  datatype Outcome = Completed | Raised(error: Error)
}
