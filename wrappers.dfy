/** The optional value used where the source returns `None` or may lack an attribute. */
module Wrappers {

  datatype Option<+T> = None | Some(value: T)
}
