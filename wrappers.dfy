/** Optional values: Go's `nil`-or-value results (an `error`, a map lookup). */
module Wrappers {
  datatype Option<+T> = None | Some(value: T)
}
