/** The optional value used for JavaScript's `null`-or-something slots. */
module Wrappers {

  datatype Option<+T> = None | Some(value: T)
}
