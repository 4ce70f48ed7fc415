/** Optional values: JavaScript's `undefined` / `null` become `None`. */
module Wrappers {

  datatype Option<+T> = None | Some(value: T)
}
