/** Optional values: a nullable pointer, an optional parent widget, an absent icon. */
module Wrappers {
  datatype Option<+T> = None | Some(value: T)
}
