/** Optional values: a property, a reply or a request that may be absent. */
module Wrappers {
  datatype Option<+T> = None | Some(value: T)
}
