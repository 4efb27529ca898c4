/** The optional value used for the package's nullable file logger. */
module Wrappers {

  datatype Option<+T> = None | Some(value: T)
}
