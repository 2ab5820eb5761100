/** The optional value the page uses where the original holds `null`. */
module Wrappers {

  datatype Option<+T> = None | Some(value: T)
}
