/** Optional values and fallible results, as the Rust code uses `Option` and aborting `expect`. */
module Wrappers {

  datatype Option<+T> = None | Some(value: T)

  datatype Result<+T> = Success(value: T) | Failure(error: string)
}
