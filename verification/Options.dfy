/** The nullable values of the source: a column that may be NULL, a lookup that may find nothing. */
module Options {
  datatype Option<+T> = None | Some(value: T) {
    function Or(fallback: T): T {
      match this
      case Some(v) => v
      case None => fallback
    }
  }

  function Max(a: int, b: int): int {
    if a < b then b else a
  }

  function Min(a: int, b: int): int {
    if a < b then a else b
  }
}
