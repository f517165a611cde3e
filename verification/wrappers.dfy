/** The optional value used wherever the program has `None`. */
module Wrappers {
  datatype Option<+T> = None | Some(value: T)
}
