/** The optional value used for the engine's winner and the replay-key table. */
module Wrappers {
  datatype Option<+T> = None | Some(value: T)
}
