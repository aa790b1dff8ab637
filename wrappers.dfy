/** The optional value used for nullable references and absent fields. */
module Wrappers {

  datatype Option<+T> = None | Some(value: T)
}
