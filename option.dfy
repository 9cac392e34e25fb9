/** The optional value used wherever the source reads a value that may be
    `undefined` (a missing match, an empty list's first element). */
module Options {

  datatype Option<+T> = None | Some(value: T)
}
