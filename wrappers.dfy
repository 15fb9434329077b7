/** Optional values, used for "not found" and "read failed" results. */
module Wrappers {
  datatype Option<T> = None | Some(value: T)
}
