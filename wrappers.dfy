/** Optional values, used for JavaScript's `undefined` and Go's nil error. */
module Wrappers {
  datatype Option<+T> = None | Some(value: T)
}
