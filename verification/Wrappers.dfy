/** An optional value: Go's nil pointers and missing entries. */
module Wrappers {
  datatype Option<+T> = None | Some(value: T)
}
