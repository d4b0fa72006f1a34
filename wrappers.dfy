/** Option and Result values, used where the JavaScript source returns `null`
    or throws an exception. */
module Wrappers {

  datatype Option<+T> = None | Some(value: T)

  /** `Err` carries the message of the exception the source would throw. */
  datatype Result<+T> = Ok(value: T) | Err(message: string)
}
