/** The errors the Python code raises, and the Result wrapper of every call that can raise one. */
module Results {

  /** Python exceptions raised by the modelled code. */
  datatype Error =
    | ValueError(message: string)
    | ZeroDivisionError

  /** Either the value a call returns or the exception it raises. */
  datatype Result<+T> = Ok(value: T) | Err(error: Error)

  /** A Python value that may be None. */
  datatype Option<+T> = None | Some(value: T)
}
