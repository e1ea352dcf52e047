/** The optional value used wherever a C argument may be NULL. */
module Wrappers {

  datatype Option<+T> = None | Some(value: T)
}
