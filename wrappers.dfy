/** The optional value used for nil-able errors, cause links and "no recorder call". */
module Wrappers {

  datatype Option<+T> = None | Some(value: T)
}
