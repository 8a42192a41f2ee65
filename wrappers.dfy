/** Small failure-compatible datatypes shared by the backend modules. */
module Wrappers {

  /** A value that may be absent: Ruby's `nil` where the source returns one. */
  datatype Option<+T> = None | Some(value: T)
}
