/** The optional value used where the mod returns "nothing" (a null sprite, an absent image). */
module Wrappers {

  datatype Option<+T> = None | Some(value: T)
}
