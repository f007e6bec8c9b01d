/** The optional value used where the page may hold no answer yet. */
module Wrappers {

  datatype Option<+T> = None | Some(value: T)
}
