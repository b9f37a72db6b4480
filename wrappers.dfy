/** Optional values: a trace that may not be loaded, a label that may not be set. */
module Wrappers {
  datatype Option<+T> = None | Some(value: T)
}
