/** Failure-carrying values shared by every module: Go's `(T, error)` pairs and nil-able pointers. */
module Common {

  /** Go's `error`: only its message is observable. */
  datatype Error = Error(message: string)

  /** A nil-able value. */
  datatype Option<+T> = None | Some(value: T)

  /** A `(value, error)` pair where exactly one side is meaningful. */
  datatype Result<+T> = Ok(value: T) | Err(error: Error)
}
