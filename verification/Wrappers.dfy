/** The optional value shared by the models of the error slots. */
module Wrappers {
  datatype Option<+T> = None | Some(value: T)
}
