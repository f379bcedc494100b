/** Optional values: Kotlin's nullable types `T?` are modelled as `Option<T>`. */
module Wrappers {
  datatype Option<+T> = None | Some(value: T)
}
