/** The optional value used where the source either finds something or raises. */
module Wrappers {
  datatype Option<+T> = None | Some(value: T)
}
