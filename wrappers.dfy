/** Shared helper types: Go's nil-able values become `Option`. */
module Wrappers {

  /** `None` stands for Go's nil (a nil pointer, a nil error, a nil slice). */
  datatype Option<+T> = None | Some(value: T)
}
