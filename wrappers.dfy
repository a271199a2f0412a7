/** The optional value used where the client holds a nullable reference. */
module Wrappers {

  datatype Option<+T> = None | Some(value: T)
}
