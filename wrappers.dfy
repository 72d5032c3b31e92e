/** Optional values: a session-state key that may be absent, a decode that may fail. */
module Wrappers {
  datatype Option<+T> = None | Some(value: T)
}
