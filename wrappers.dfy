/** The optional value used for fallible lookups and unset fields. */
module Wrappers {
  datatype Option<+T> = None | Some(value: T)
}
