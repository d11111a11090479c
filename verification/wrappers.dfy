/** Option, the usual Some/None wrapper, shared by both halves of the model. */
module Wrappers {

  datatype Option<+T> = None | Some(value: T)
}
