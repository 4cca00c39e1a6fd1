/** The optional value used where the source has "nothing yet" (an empty dict, a value not taken). */
module Options {
  datatype Option<+T> = None | Some(value: T)
}
