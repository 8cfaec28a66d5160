/** Optional values. */
module Wrappers {

  /** JavaScript's `T | null`. */
  datatype Option<+T> = None | Some(value: T)
}
