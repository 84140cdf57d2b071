/** Optional values: a port function pointer that may be NULL, or a read that may fail. */
module Wrappers {
  datatype Option<+T> = None | Some(value: T)
}
