/** The optional value used for Python's `dict.get` without a default and for "no field found". */
module Wrappers {
  datatype Option<+T> = None | Some(value: T)
}
