/** The optional value used wherever the window's code has a "no value" outcome. */
module Wrappers {
  datatype Option<+T> = None | Some(value: T)
}
