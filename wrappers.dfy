/** The optional value used wherever the Java source returns or stores null. */
module Wrappers {

  datatype Option<+T> = None | Some(value: T)
}
