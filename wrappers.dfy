/** The optional value used for nullable columns and partial parsers. */
module Wrappers {

  datatype Option<+T> = None | Some(value: T)
}
