/** The optional value used for "no such base subobject" and for an empty buffer slot. */
module Wrappers {

  datatype Option<+T> = None | Some(value: T)
}
