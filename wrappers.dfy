/** Option and Result, used for the JavaScript values that may be missing (null, NaN)
    and for the validation chains that stop at their first failure. */
module Wrappers {

  datatype Option<+T> = None | Some(value: T)

  datatype Result<+T, +E> = Ok(value: T) | Err(error: E)
}
