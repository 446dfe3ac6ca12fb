/** The failure-free option type used for absent waiters, owners and messages. */
module Wrappers {
  datatype Option<+T> = None | Some(value: T)
}
