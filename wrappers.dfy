/** The optional value used wherever the Go source returns a nil-able value or a (value, ok) pair. */
module Wrappers {

  datatype Option<+T> = None | Some(value: T)
}
