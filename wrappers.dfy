/** Optional values, for the Swift optionals the controller unwraps. */
module Wrappers {
  datatype Option<+T> = None | Some(value: T)
}
