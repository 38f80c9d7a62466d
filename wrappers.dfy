/** Optional values: `null` in the components' return values and in `localStorage.getItem`. */
module Wrappers {
  datatype Option<T> = None | Some(value: T)
}
