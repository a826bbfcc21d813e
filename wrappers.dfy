/** The optional value used for JavaScript's `string | null`. */
module Wrappers {

  datatype Option<+T> = None | Some(value: T)
}
