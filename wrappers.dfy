/** Optional values: an absent result stands for a message the dashboard shows instead of output. */
module Wrappers {
  datatype Option<T> = None | Some(value: T)
}
