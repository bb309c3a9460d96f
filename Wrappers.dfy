/** Option, used for a value that may be missing (a JavaScript `null` or `NaN`). */
module Wrappers {

  datatype Option<+T> = None | Some(value: T)
}
