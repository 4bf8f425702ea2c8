/** The optional value used for fallible external calls and optional arguments. */
module Wrappers {

  datatype Option<+T> = None | Some(value: T)

}
