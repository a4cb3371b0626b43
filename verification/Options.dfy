/** The optional value that stands for Go's nil pointers and missing map entries. */
module Options {

  datatype Option<+T> = None | Some(value: T)
}
