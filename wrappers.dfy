/** Option and Result, the two wrappers the model uses for
    JavaScript's `null` and for the error path of a fetch. */
module Wrappers {

  datatype Option<+T> = None | Some(value: T)

  datatype Result<+R, +E> = Ok(value: R) | Err(error: E)
}
