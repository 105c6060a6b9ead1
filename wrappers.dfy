/** The optional value used for JavaScript's `undefined`/`null` and for callback error arguments. */
module Wrappers {

  datatype Option<+T> = None | Some(value: T)
}
