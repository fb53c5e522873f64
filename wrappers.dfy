/** Optional values, used for lookups that can fail and for error outcomes. */
module Wrappers {

  datatype Option<+T> = None | Some(value: T)
}
