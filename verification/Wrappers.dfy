/** Optional values, standing for Go's nil-able pointers, slices and map lookups. */
module Wrappers {
  datatype Option<+T> = None | Some(value: T)
}
