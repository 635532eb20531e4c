/** The optional value used for "emit a fragment or not" and "request a transition or not". */
module Wrappers {

  datatype Option<+T> = None | Some(value: T)
}
