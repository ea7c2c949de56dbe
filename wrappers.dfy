/** Optional values: a Go pointer that may be nil, or an `error` result that may be nil. */
module Wrappers {

  datatype Option<+T> = None | Some(value: T)
}
