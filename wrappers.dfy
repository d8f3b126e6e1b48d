/** Optional values and results with an error message: the model's stand-ins for
    `null`/`undefined` and for a thrown `Error`. */
module Wrappers {

  datatype Option<+T> = None | Some(value: T)

  datatype Result<+T> = Success(value: T) | Failure(error: string)
}
