/** Option and Result values: the model's stand-in for Python's None and for
    the exceptions that abort the two scripts. */
module Wrappers {

  datatype Option<+T> = None | Some(value: T)

  datatype Result<+T, +E> = Ok(value: T) | Err(error: E)
}
