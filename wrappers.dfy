/** The optional value used for "a header value, or none at all". */
module Wrappers {

  datatype Option<+T> = None | Some(value: T)
}
