/** The optional value used wherever the gateway has "nothing" as an answer. */
module Wrappers {
  datatype Option<+T> = None | Some(value: T)
}
