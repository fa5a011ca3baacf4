/** The optional value used for every field the Java code may leave `null`. */
module Wrappers {
  datatype Option<+T> = None | Some(value: T)
}
