/** Go's nil-able values (a pointer that may be nil, an error that may be nil). */
module Wrappers {
  datatype Option<+T> = None | Some(value: T)
}
