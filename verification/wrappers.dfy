/** The optional-value datatype shared by the scanner and the parser. */
module Wrappers {

  datatype Option<+T> = None | Some(value: T)
}
