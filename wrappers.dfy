/** Optional values: a field of a JavaScript object that may never have been assigned. */
module Wrappers {

  datatype Option<+T> = None | Some(value: T)
}
