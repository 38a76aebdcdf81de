/** The optional value returned by parsers and lookups. */
module Wrappers {

  datatype Option<+T> = None | Some(value: T)
}
