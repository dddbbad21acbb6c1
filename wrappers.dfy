/** Optional values and outcomes with an error, used where the script returns
    `undefined`/`NaN`/`null` or stops early instead of producing a result. */
module Wrappers {

  datatype Option<+T> = None | Some(value: T)

  datatype Result<+R, +E> = Success(value: R) | Failure(error: E)
}
