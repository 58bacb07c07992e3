/** Values shared by every module of the model. */
module Common {

  datatype Option<+T> = None | Some(value: T)

  /** An opaque text value: an identifier, a digest, a message. Only equality matters and, for the
      identifiers a query orders by, the order. The empty text is the smallest value. */
  type Token = nat

  const EMPTY: Token := 0

  function Max(a: int, b: int): int { if a < b then b else a }

  function Min(a: int, b: int): int { if a < b then a else b }
}
