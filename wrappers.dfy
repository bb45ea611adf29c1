/** Optional values: a null pointer or an absent lookup result. */
module Wrappers {
  datatype Option<T> = None | Some(value: T)
}
