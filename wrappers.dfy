/** The optional value used for absent drag payloads and for the colour of an empty bowl. */
module Wrappers {
  datatype Option<+T> = None | Some(value: T)
}
