/** Optional values, used for nullable columns and for absent rows. */
module Wrappers {
  datatype Option<+T> = None | Some(value: T)
}
