/** Small value types shared by every component. */
module Wrappers {

  /** A pointer that may be null, or a value that may be missing. */
  datatype Option<+T> = None | Some(value: T)

  // System-wide error codes used by the modelled files.
  const KErrNone := 0
  const KErrNotFound := -1
  const KErrGeneral := -2
  const KErrCancel := -3
  const KErrArgument := -6
  const KErrOverflow := -9
  const KErrAlreadyExists := -11
  const KErrDied := -13
}
