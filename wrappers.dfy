/** The optional value used for absent fields of the records the component handles. */
module Wrappers {
  datatype Option<+T> = None | Some(value: T)
}
