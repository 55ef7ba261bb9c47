/** Option: a value or nothing, used for Go's `error` returns and nil results. */
module Wrappers {

  datatype Option<+T> = None | Some(value: T)
}
