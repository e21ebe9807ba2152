/** Optional values and results. A failed `Result` carries the text of the error,
    which is all the mirror ever does with an error below the response writer:
    it wraps it with a prefix and finally reports its text. */
module Wrappers {

  datatype Option<+T> = None | Some(value: T)

  datatype Result<+T> = Success(value: T) | Failure(error: string)
}
