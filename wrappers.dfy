/** Optional values: JavaScript's `undefined` for a field that may be unset. */
module Wrappers {

  datatype Option<+T> = None | Some(value: T)
}
