/** Optional values, for readers that may find nothing to read. */
module Wrappers {

  datatype Option<T> = None | Some(value: T)
}
