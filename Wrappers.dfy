/** An optional value: `undefined`/`null` versus a present one. */
module Wrappers {

  datatype Option<+T> = None | Some(value: T)
}
