/** Optional values: `None` stands for a null pointer or `npos`. */
module Wrappers {
  datatype Option<T> = None | Some(value: T)
}
