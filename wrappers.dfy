/** The optional value used for absent JavaScript fields and for results that may be missing. */
module Wrappers {
  datatype Option<+T> = None | Some(value: T)
}
