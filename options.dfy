/** The optional value used across the model for results that may be absent
    (a NULL pointer, a missing environment variable, a failed lookup). */
module Options {
  datatype Option<+T> = None | Some(value: T)
}
