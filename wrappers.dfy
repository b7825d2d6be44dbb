/** The Option datatype used for the nullable `ptyProcess` variable and the
    possibly missing HOME directory. */
module Wrappers {
  datatype Option<+T> = None | Some(value: T)
}
