/** The optional value used where the source returns either a record or `false`. */
module Wrappers {

  datatype Option<+T> = None | Some(value: T)
}
