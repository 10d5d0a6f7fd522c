/** The usual optional value, for absent fields and "no error". */
module Options {

  datatype Option<+T> = None | Some(value: T)
}
