/** The "value or nothing" type used wherever the client returns `None`
    in place of a result. */
module Wrappers {

  datatype Option<+T> = None | Some(value: T)
}
