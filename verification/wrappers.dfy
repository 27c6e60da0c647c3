/** Optional values: a persisted item that may be absent. */
module Wrappers {
  datatype Option<+T> = None | Some(value: T)
}
