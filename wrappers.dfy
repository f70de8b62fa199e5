/** Optional values: the store's reply for a key that may be unset. */
module Wrappers {
  datatype Option<+T> = None | Some(value: T)
}
