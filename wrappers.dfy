/** The optional value that the program expresses with Python's `None`. */
module Wrappers {

  datatype Option<+T> = None | Some(value: T)
}
