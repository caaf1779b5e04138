/**
  * Option and Result, the two shapes the pipeline uses for a value that
  * may be missing (a failed fetch, a falsy report) and for an operation
  * that may raise (the message formatter).
  */
module Wrappers {

  datatype Option<+T> = None | Some(value: T)

  /** An operation that either produced a value or raised an error. */
  datatype Result<+T> = Ok(value: T) | Err(error: string)
}
