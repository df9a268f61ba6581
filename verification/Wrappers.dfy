/** Optional values, used where the source uses `Option`. */
module Wrappers {
  datatype Option<+T> = None | Some(value: T)
}
