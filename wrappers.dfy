/** The optional value the matcher returns: Python's `None` or a hit. */
module Wrappers {

  datatype Option<+T> = None | Some(value: T)
}
