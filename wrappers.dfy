/** The optional value used where the source returns "nothing usable" or keeps a nullable tag. */
module Wrappers {
  datatype Option<+T> = None | Some(value: T)
}
