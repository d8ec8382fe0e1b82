/** The optional value used where the program has a nil view or an absent line. */
module Wrappers {

  datatype Option<+T> = None | Some(value: T)
}
