/** Option and Result, used for the values the source either produces or
    raises an exception instead of. */
module Wrappers {

  datatype Option<+T> = None | Some(value: T)

  datatype Result<+T, +E> = Ok(value: T) | Err(error: E)

}
