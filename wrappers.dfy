/** The absent-or-present value shared by the token store and the router. */
module Wrappers {

  /** `null` (or a missing storage item) is `None`; anything else is `Some`. */
  datatype Option<+T> = None | Some(value: T)
}
