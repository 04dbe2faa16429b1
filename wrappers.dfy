/** Option, for values that the source may leave null or that a lookup may not find. */
module Wrappers {
  datatype Option<+T> = None | Some(value: T)
}
