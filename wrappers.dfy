/** The optional value used for an unanswered question and for a failed lookup. */
module Wrappers {

  datatype Option<+T> = None | Some(value: T)
}
