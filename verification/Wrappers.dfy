/** The optional value used throughout: Go's nil pointers, nil errors and absent map entries. */
module Wrappers {
  datatype Option<+T> = None | Some(value: T)
}
