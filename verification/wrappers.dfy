/** Optional values: `None` when there is no value, `Some(v)` otherwise. */
module Wrappers {

  datatype Option<+T> = None | Some(value: T)
}
