/** Optional values and results with an error, used for the scanner's
    "no match", the filesystem's "threw" and the external tool's failure. */
module Wrappers {

  datatype Option<+T> = None | Some(value: T)

  datatype Result<+T, +E> = Success(value: T) | Failure(error: E)
}
