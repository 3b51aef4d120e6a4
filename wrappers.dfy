/** The optional value used wherever the source returns `None`, raises a
    lookup error or leaves a field unset. */
module Wrappers {

  datatype Option<+T> = None | Some(value: T)
}
