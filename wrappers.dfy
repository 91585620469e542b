/** The optional value used for the parts of the authentication state that may be absent. */
module Wrappers {

  datatype Option<+T> = None | Some(value: T)

}
