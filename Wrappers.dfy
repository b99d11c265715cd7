/** Optional values: JavaScript's `undefined` alongside a value. */
module Wrappers {

  datatype Option<+T> = None | Some(value: T)
}
