/** The optional values the script represents with `null`. */
module Wrappers {

  datatype Option<+T> = None | Some(value: T)
}
