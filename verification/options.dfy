/** The optional values and the producer-independent byte type shared by every module. */
module Options {
  datatype Option<+T> = None | Some(value: T)

  newtype Byte = b: int | 0 <= b < 256

  function Min(a: int, b: int): (m: int)
    ensures m <= a && m <= b && (m == a || m == b)
  {
    if a <= b then a else b
  }

  function Max(a: int, b: int): (m: int)
    ensures m >= a && m >= b && (m == a || m == b)
  {
    if a >= b then a else b
  }
}
