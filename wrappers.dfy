/** Failure-carrying results shared by every module of the ingestion model. */
module Wrappers {

  /** The outcome of a step that either returns a value or raises an exception
      whose text (`str(exc)`) is `msg`. */
  datatype Result<T> = Ok(value: T) | Err(msg: string)

  datatype Option<T> = None | Some(value: T)

  function Min(a: int, b: int): int {
    if a <= b then a else b
  }
}
