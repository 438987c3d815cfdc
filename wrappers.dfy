/** The optional value used for Python calls that may fail (a parser that raises ValueError,
    an index that raises IndexError). */
module Wrappers {

  datatype Option<+T> = None | Some(value: T)
}
