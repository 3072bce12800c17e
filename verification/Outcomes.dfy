/** Success or a thrown error, and an optional value: the two shapes the sources use. */
module Outcomes {
  datatype Option<+T> = None | Some(value: T)

  datatype Result<+T> = Ok(value: T) | Err(message: string)
}
