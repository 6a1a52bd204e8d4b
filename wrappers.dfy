/** The optional value the translator uses wherever Python has `None`. */
module Wrappers {

  datatype Option<+T> = None | Some(value: T)
}
