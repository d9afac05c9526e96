/** Option and Result, the failure-carrying datatypes the handlers return. */
module Wrappers {

  datatype Option<+T> = None | Some(value: T)

  /** `Ok` is a 2xx response carrying its payload; `Err` is a 4xx response. */
  datatype Result<+T, +E> = Ok(value: T) | Err(error: E)
}
