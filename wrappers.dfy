/** The absent/present result of the exception constructors: Go's `nil` pointer
    becomes `None`. */
module Wrappers {
  datatype Option<+T> = None | Some(value: T)
}
