/**
 Shared vocabulary: bytes, nullable values, and the Python truthiness test that the
 application applies to its nullable columns (`if track.mp3_file:`, `a or b`).
 */
module Base {

  /** One byte of a stored blob. */
  newtype byte = x: int | 0 <= x < 256

  type Bytes = seq<byte>

  /** A nullable column or attribute. */
  datatype Option<+T> = None | Some(value: T)

  /** Truthiness of a nullable string or byte column: set and non-empty. */
  predicate Present<T>(o: Option<seq<T>>)
  {
    o.Some? && |o.value| > 0
  }

  /** The value of `a or b` for two nullable columns. */
  function Or<T>(a: Option<seq<T>>, b: Option<seq<T>>): (r: Option<seq<T>>)
    ensures Present(r) <==> Present(a) || Present(b)
    ensures Present(a) ==> r == a
    ensures !Present(a) ==> r == b
  {
    if Present(a) then a else b
  }

  function Min(a: int, b: int): (m: int)
    ensures m <= a && m <= b
    ensures m == a || m == b
  {
    if a <= b then a else b
  }
}
