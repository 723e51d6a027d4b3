/** The optional value used wherever the server reads a field that may be unset. */
module Wrappers {

  datatype Option<+T> = None | Some(value: T)

}
