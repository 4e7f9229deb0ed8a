/** The optional value used for the selected product and the last-edited tag
    (the screen's `null` states). */
module Options {
  datatype Option<T> = None | Some(value: T)
}
