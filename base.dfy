/** Small datatypes shared by every module of the model. */
module Base {

  /** An optional value: Python's `None` / JavaScript's `null` or `undefined`, or a value. */
  datatype Option<+T> = None | Some(value: T)

  /** How a call to a foreign routine ended: normally, or by raising an exception with a message. */
  datatype Outcome = Succeeded | Raised(message: string)

  /** The answer of a routine that either produces a value or raises with a message. */
  datatype Result<+T> = Ok(value: T) | Err(message: string)
}
