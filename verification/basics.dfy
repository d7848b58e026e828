/** Small shared vocabulary: optional values and bytes. */
module Basics {

  /** A value that may be absent (a Go nil pointer, a Kotlin null). */
  datatype Option<+T> = None | Some(value: T) {

    /** The value, or `default` when absent. */
    function GetOr(default: T): T {
      match this
      case Some(v) => v
      case None => default
    }
  }

  /** Either a value or the reason there is none (a Go `error`, a panic). */
  datatype Result<+T, +E> = Ok(value: T) | Err(error: E)

  /** An unsigned 8-bit value, kept as an integer so that arithmetic stays linear. */
  type byte = x: int | 0 <= x < 256

  /** Number of occurrences of `c` in `s`. */
  function Count(c: char, s: string): (n: nat)
    ensures n <= |s|
    ensures n == 0 <==> c !in s
  {
    if s == [] then 0 else (if s[0] == c then 1 else 0) + Count(c, s[1..])
  }

  lemma {:induction false} CountAppend(c: char, a: string, b: string)
    ensures Count(c, a + b) == Count(c, a) + Count(c, b)
  {
    if a != [] {
      assert (a + b)[0] == a[0] && (a + b)[1..] == a[1..] + b;
      CountAppend(c, a[1..], b);
    } else {
      assert a + b == b;
    }
  }
}
