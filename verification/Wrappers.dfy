/** Optional values, used for the source's nil-able pointers. */
module Wrappers {

  datatype Option<+T> = None | Some(value: T)
}
