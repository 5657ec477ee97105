/** Option and Result, the two wrappers the rest of the model uses for
    "absent" and for "threw an exception". */
module Wrappers {

  datatype Option<+T> = None | Some(value: T)

  datatype Result<+T, +E> = Success(value: T) | Failure(error: E)
}
