/** The optional value used for "the Go call would not return". */
module Wrappers {
  datatype Option<T> = None | Some(value: T)
}
