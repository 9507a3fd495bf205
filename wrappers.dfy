/** The optional value used wherever the Java code stores or passes a possibly-null reference. */
module Wrappers {

  datatype Option<+T> = None | Some(value: T)
}
