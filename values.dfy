/** Small value types shared by the model: Java's nullable references become
    `Option`, and a half-open character range becomes a `Span`. */
module Values {

  datatype Option<+T> = None | Some(value: T)

  /** A half-open range `[start, end)` of character offsets. */
  datatype Span = Span(start: int, end: int)

  /** Java's `Integer.MAX_VALUE`. */
  const IntMax: int := 0x7FFF_FFFF

  /** A mathematical integer narrowed to a Java `int`: wrapped into 32-bit
      two's complement, as Java's `int` arithmetic does on overflow. */
  function Wrap32(x: int): (r: int)
    ensures -0x8000_0000 <= r <= IntMax
    ensures (r - x) % 0x1_0000_0000 == 0
    ensures -0x8000_0000 <= x <= IntMax ==> r == x
  {
    (x + 0x8000_0000) % 0x1_0000_0000 - 0x8000_0000
  }
}
