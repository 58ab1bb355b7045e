/** Option and Result values, used wherever the source returns None or raises. */
module Wrappers {

  datatype Option<+T> = None | Some(value: T)

  /** A computation that either produced a value or raised; `error` names the Python exception. */
  datatype Result<+T> = Ok(value: T) | Err(error: string)
}
