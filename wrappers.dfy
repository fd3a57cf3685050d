/** The optional value used for nullable state and absent record fields. */
module Wrappers {
  datatype Option<+T> = None | Some(value: T)
}
