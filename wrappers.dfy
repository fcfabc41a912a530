/** The optional value used where the Java code holds a possibly-null reference. */
module Wrappers {

  datatype Option<+T> = None | Some(value: T)
}
