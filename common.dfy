/** Small value types shared by the client and the server model. */
module Common {

  /** Python's `None` or a present value. */
  datatype Option<+T> = None | Some(value: T)

  /** One octet of a datagram payload or an encoded frame. */
  newtype byte = x: int | 0 <= x < 256

  /** `a if a >= b else b` */
  function Max(a: int, b: int): int
  {
    if a >= b then a else b
  }

  /** `a if a <= b else b` */
  function Min(a: int, b: int): int
  {
    if a <= b then a else b
  }
}
