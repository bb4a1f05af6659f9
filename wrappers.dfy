/** Optional values: JavaScript's `null` / `undefined` as an explicit case. */
module Wrappers {

  datatype Option<+T> = None | Some(value: T)
}
