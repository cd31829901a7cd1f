/** Error-as-value wrappers: the Python code signals failure by raising, the model returns. */
module Outcomes {

  /** A value that may be absent (Python's `None`). */
  datatype Option<+T> = None | Some(value: T)

  /** A value, or the message of the exception the Python code would raise instead. */
  datatype Result<+T> = Ok(value: T) | Err(message: string)
}
