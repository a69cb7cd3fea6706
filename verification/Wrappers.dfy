module Wrappers {
  /** A Go pointer or map lookup that may be nil. */
  datatype Option<+T> = None | Some(value: T)
}
