/** The optional-value type used where the C code returns a null pointer or a "not found" flag. */
module Wrappers {

  datatype Option<+T> = None | Some(value: T)

}
