/** Option, used for a value that may be absent: a Java `null`, or a call that ends in an exception. */
module Wrappers {

  datatype Option<+T> = None | Some(value: T)
}
