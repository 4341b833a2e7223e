/** Option and Result values standing for Python's `None` and for the
    exceptions (failed asserts, missing keys, type errors) the modelled code
    raises. */
module Wrappers {

  datatype Option<+T> = None | Some(value: T)

  /** `Err` carries a short description of the Python exception. */
  datatype Result<+T> = Ok(value: T) | Err(error: string)
}
