/** The optional value of Swift's failable initialisers and optional properties. */
module Wrappers {
  datatype Option<+T> = None | Some(value: T)
}
