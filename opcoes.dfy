/** A value that may be absent: JavaScript's `undefined`/`null` versus a present value. */
module Opcoes {
  datatype Option<+T> = None | Some(value: T)
}
