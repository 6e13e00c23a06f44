/** Optional values: JavaScript's `null`/`undefined` for a field or argument. */
module Wrappers {

  datatype Option<+T> = None | Some(value: T)
}
