/** Optional values: React state fields that start as `null`. */
module Wrappers {
  datatype Option<+T> = None | Some(value: T)
}
