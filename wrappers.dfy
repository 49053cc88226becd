/** The optional value used for absent fields and for operations that throw. */
module Wrappers {

  datatype Option<+T> = None | Some(value: T)
}
