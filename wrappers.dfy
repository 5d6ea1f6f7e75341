/** The optional value used wherever the source has `T | null` or a possibly missing entry. */
module Wrappers {

  datatype Option<+T> = None | Some(value: T)
}
