/** The optional value used wherever the app works with a Swift optional. */
module Wrappers {
  datatype Option<+T> = None | Some(value: T)
}
