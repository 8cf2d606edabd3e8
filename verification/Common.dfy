/** What several modules share. */
module Common {
  /** The optional value that stands for a nullable column or Python's None. */
  datatype Option<+T> = None | Some(value: T)

  function Max(a: real, b: real): real { if a < b then b else a }
}
