/** The optional value used for absent keys and for "no error". */
module Wrappers {

  datatype Option<+T> = None | Some(value: T)
}
