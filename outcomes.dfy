/** Values that the vendor SDK hands back, and the shape of its failures. */
module Outcomes {

  datatype Option<+T> = None | Some(value: T)

  /** The outcome of one call into the vendor SDK: the value it returned,
      or the message of the exception it raised. */
  datatype Outcome<+T> = Ok(value: T) | Err(message: string)
}
