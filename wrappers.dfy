/** Option: a value that may be absent (Go's nil). */
module Wrappers {

  datatype Option<+T> = None | Some(value: T)
}
