/** The optional value used for "no match" and "not checkable" outcomes. */
module Wrappers {
  datatype Option<+T> = None | Some(value: T)
}
