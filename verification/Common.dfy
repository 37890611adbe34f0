/** Types and functions that several modules share. */
module Common {

  datatype Option<T> = None | Some(value: T)

  // Kotlin's coerceIn.
  function CoerceIn(n: int, low: int, high: int): int {
    if n < low then low else if n > high then high else n
  }
}
