/** The optional value used for "no such row" and for validation outcomes. */
module Wrappers {

  datatype Option<+T> = None | Some(value: T)
}
