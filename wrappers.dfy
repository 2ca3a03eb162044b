/** The optional value used wherever the JavaScript code returns `null` for "nothing". */
module Wrappers {

  datatype Option<+T> = None | Some(value: T)
}
