/** Java's nullable references, where the code tests them for null. */
module Wrappers {
  datatype Option<+T> = None | Some(value: T)
}
