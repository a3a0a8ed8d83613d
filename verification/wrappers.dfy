/** An optional value, shared by the renderers that may have no point to give. */
module Wrappers {
  datatype Option<T> = None | Some(value: T)
}
