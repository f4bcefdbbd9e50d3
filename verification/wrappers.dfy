/** The optional value used for the fields a record may leave out. */
module Wrappers {

  datatype Option<+T> = None | Some(value: T)
}
