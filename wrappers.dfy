/** Optional values: JavaScript's `undefined`/`null` for a field or a slot. */
module Wrappers {

  datatype Option<+T> = None | Some(value: T)
}
