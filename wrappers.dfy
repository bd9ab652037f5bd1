/** The Option datatype used for JavaScript's optional values (`undefined`, a missing key, `null`). */
module Wrappers {

  datatype Option<+T> = None | Some(value: T)
}
