/** Shared by every component: a null pointer or a pointer. */
module Prelude {
  datatype Option<+T> = None | Some(value: T)
}
