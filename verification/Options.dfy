/** An optional value (None in the program, NULL in its tables). */
module Options {
  datatype Option<+T> = None | Some(value: T)
}
