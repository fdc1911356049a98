/** The optional value used for results that may be absent (no alignment, no winner). */
module Options {
  datatype Option<+T> = None | Some(value: T)
}
