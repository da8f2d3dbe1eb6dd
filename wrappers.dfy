/** Optional values: JavaScript's `undefined` (and a `null` ref) is `None`. */
module Wrappers {
  datatype Option<+T> = None | Some(value: T)
}
