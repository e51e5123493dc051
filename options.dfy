/** The Some/None wrapper used for "first matching index", the analogue of a Python loop that may return nothing. */
module Options {
  datatype Option<+T> = None | Some(value: T)
}
