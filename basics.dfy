/** Values shared by the other modules: JavaScript's `null`/`undefined` as an Option. */
module Basics {

  /** A value that may be absent (`null` or `undefined` in the source). */
  datatype Option<+T> = None | Some(value: T)
}
