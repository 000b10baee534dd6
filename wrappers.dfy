/** The Some/None datatype that stands for a JavaScript value that may be
    absent (`undefined` or `null`). */
module Wrappers {

  datatype Option<+T> = None | Some(value: T)
}
