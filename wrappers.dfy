/** Optional values, used for dictionary lookups and for "no request was sent". */
module Wrappers {
  datatype Option<+T> = None | Some(value: T)
}
