/** A value that may be missing: null in JavaScript, a nil pointer or no row in Go. */
module Wrappers {

  datatype Option<+T> = None | Some(value: T)
}
