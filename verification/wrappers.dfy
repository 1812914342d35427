/** The optional values of the model: an absent `path`, `syscall`, `stack` or
    `cause` is None, never an empty string or a placeholder. */
module Wrappers {

  datatype Option<+T> = None | Some(value: T)
}
