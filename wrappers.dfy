/** The optional value used for state that is established once. */
module Wrappers {

  datatype Option<+T> = None | Some(value: T)
}
