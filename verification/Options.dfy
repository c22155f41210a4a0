/** The success-or-nothing results shared by the codecs. */
module Options {
  datatype Option<+T> = None | Some(value: T)
}
