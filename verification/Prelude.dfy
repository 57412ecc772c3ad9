/** Shared vocabulary: byte symbols, optional and failing results, 64-bit arithmetic. */
module Prelude {

  /** A byte on a connection, or a character of a control line: only equality
      and, for digits, the numeric value matter. */
  type Byte = char

  datatype Option<+T> = None | Some(value: T)

  datatype Result<+T, +E> = Ok(value: T) | Err(error: E)

  const TWO63 := 0x8000_0000_0000_0000
  const TWO64 := 0x1_0000_0000_0000_0000
  const MAX_INT64 := TWO63 - 1

  /** Two's-complement wrap-around of a 64-bit signed integer. */
  function Wrap64(n: int): (r: int)
    ensures -TWO63 <= r < TWO63
    ensures -TWO63 <= n < TWO63 ==> r == n
  {
    (n + TWO63) % TWO64 - TWO63
  }

  function Max(a: int, b: int): int {
    if a >= b then a else b
  }

  function Min(a: int, b: int): int {
    if a <= b then a else b
  }

  lemma Assoc<T>(a: seq<T>, b: seq<T>, c: seq<T>)
    ensures a + b + c == a + (b + c)
  {
  }

  /** Moves the first `i` elements of the middle part to the left. */
  lemma Regroup<T>(a: seq<T>, b: seq<T>, c: seq<T>, i: nat)
    requires i <= |b|
    ensures a + (b + c) == (a + b[..i]) + (b[i..] + c)
  {
    assert b == b[..i] + b[i..];
  }
}
