/** Optional values, used wherever the source returns `None` or reads a key that may be absent. */
module Wrappers {
  datatype Option<T> = None | Some(value: T)
}
