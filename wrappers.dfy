/** The optional value used wherever the extension's JavaScript has `undefined` or "no match". */
module Wrappers {

  datatype Option<+T> = None | Some(value: T)
}
