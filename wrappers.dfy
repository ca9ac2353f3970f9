/** Option and Result: the model's stand-ins for JavaScript's null/undefined and for thrown errors. */
module Wrappers {

  /** `None` models `null` or `undefined`. */
  datatype Option<+T> = None | Some(value: T)

  /** `Err` models a thrown `Error` carrying its message. */
  datatype Result<+T> = Ok(value: T) | Err(message: string)
}
