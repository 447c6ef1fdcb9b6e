/** The optional value used for Go's nil-able pointers and errors. */
module Wrappers {

  /** `None` stands for a nil pointer or a nil error, `Some(v)` for a present one. */
  datatype Option<+T> = None | Some(value: T)
}
