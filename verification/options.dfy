/** The optional value used for results that may be absent (a failed request, an unset selection). */
module Options {
  datatype Option<+T> = None | Some(value: T)
}
