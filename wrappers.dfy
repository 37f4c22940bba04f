/** The optional value used wherever the source returns `None` or a truthy value. */
module Wrappers {

  datatype Option<+T> = None | Some(value: T)
}
