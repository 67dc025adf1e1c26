/** Failure-carrying values shared by the other modules. */
module Results {

  datatype Option<+T> = None | Some(value: T)

  /** The outcome of a call that may throw a JavaScript `Error` with a message. */
  datatype Result<+T> = Ok(value: T) | Err(message: string)
}
