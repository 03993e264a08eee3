/** Option and Result: the model's stand-ins for JavaScript's `undefined`/`null`
    and for a thrown `Error` (whose message is kept). */
module Wrappers {

  datatype Option<+T> = None | Some(value: T)

  /** A value, or the message of the Error the source throws instead. */
  datatype Result<+T> = Ok(value: T) | Err(msg: string)

  /** `() => {}`-style success value for operations that return nothing. */
  datatype Unit = Unit
}
