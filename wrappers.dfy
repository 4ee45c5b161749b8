/** Option, the stand-in for Go's `(value, err)` pairs whose value is not used on error. */
module Wrappers {
  datatype Option<+T> = None | Some(value: T)
}
