/** Optional values, used for JavaScript's "maybe unset" variables. */
module Wrappers {
  datatype Option<+T> = None | Some(value: T)
}
