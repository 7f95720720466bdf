/** Option and Result, used where the source yields `null`/`undefined` or throws. */
module Wrappers {

  datatype Option<+T> = None | Some(value: T)

  /** The only failure the modelled code can raise: a property read through an
      `undefined` value (a JavaScript TypeError). */
  datatype Error = UndefinedLookup(key: string)

  datatype Result<+T> = Ok(value: T) | Err(error: Error)
}
