/** The optional value used wherever the Swift code has an optional (`T?`). */
module Wrappers {

  datatype Option<+T> = None | Some(value: T)
}
