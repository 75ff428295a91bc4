/** The optional value used for absent rows, absent fields and a resolver that finds nothing. */
module Wrappers {
  datatype Option<+T> = None | Some(value: T)
}
