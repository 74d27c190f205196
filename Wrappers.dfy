/** The optional value used by the model wherever the source has an
    `undefined` result (a missing split field, no promotion piece, no piece
    on a square). */
module Wrappers {

  datatype Option<+T> = None | Some(value: T)
}
