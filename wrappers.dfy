/** Optional values: a prop or record field that may be absent. */
module Wrappers {
  datatype Option<+T> = None | Some(value: T)
}
