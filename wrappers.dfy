/** The optional value used for Python's `None`-or-value arguments and for decoders that can fail. */
module Wrappers {

  datatype Option<+T> = None | Some(value: T)
}
