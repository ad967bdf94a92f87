/** Small wrapper types shared by every module of the importer model. */
module Types {

  /** A cell or lookup that may be absent (pandas' NaN/None, or a missing dictionary key). */
  datatype Option<T> = None | Some(value: T)

  /** The outcome of a step that may raise: a value, or the data its error message quotes. */
  datatype Result<T, E> = Ok(value: T) | Err(error: E)
}
