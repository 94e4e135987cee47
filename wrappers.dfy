/** Optional values: JavaScript's `string | null` and the like. */
module Wrappers {

  datatype Option<+T> = None | Some(value: T)
}
