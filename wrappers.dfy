/** Optional values, used for Go's `value, ok` and `value, err` pairs. */
module Wrappers {

  datatype Option<+T> = None | Some(value: T)
}
