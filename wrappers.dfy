/** Option and Result, the two wrappers the model uses for "maybe absent" values and
    for outcomes that are either a value or an error. */
module Wrappers {

  datatype Option<+T> = None | Some(value: T)

  datatype Result<+R, +E> = Success(value: R) | Failure(error: E)
}
