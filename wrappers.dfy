/** The optional value used for a pawn's position and for the winner. */
module Wrappers {
  datatype Option<+T> = None | Some(value: T)
}
