/** The optional value used where the application keeps "nothing yet" (no pending timer
    callback, no stored user data, a duration text that does not parse as a whole number). */
module Options {
  datatype Option<T> = None | Some(value: T)
}
