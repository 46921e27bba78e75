/** Option and Result, for values that may be missing and operations that may raise. */
module Wrappers {
  datatype Option<+T> = None | Some(value: T)

  /** `Err` stands for a Python exception escaping the operation; `error` names it. */
  datatype Result<+T> = Ok(value: T) | Err(error: string)
}
