/** Rust's `Option`, used for `PlayerTurn::movement` and for the results of decoders. */
module Wrappers {
  datatype Option<+T> = None | Some(value: T)
}
