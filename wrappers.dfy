/** Optional values and error-or-value results, used for the source's
    optional record fields (`field?: T`, `string | null`) and for its thrown errors. */
module Wrappers {

  datatype Option<+T> = None | Some(value: T)

  datatype Result<+T, +E> = Ok(value: T) | Err(error: E)
}
