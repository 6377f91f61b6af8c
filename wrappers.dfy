/** The optional value used for nullable fields (a JavaScript `null` or absent entry). */
module Wrappers {
  datatype Option<+T> = None | Some(value: T)
}
