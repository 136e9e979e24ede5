/** Small shared vocabulary: optional values, results, and Go strings seen as bytes. */
module Prelude {

  datatype Option<+T> = None | Some(value: T)

  datatype Result<+T, +E> = Ok(value: T) | Err(error: E)

  /** One byte of a Go string. Characters below 256 let string literals denote byte strings. */
  type byte = c: char | (c as int) < 256

  type bytes = seq<byte>

  lemma Regroup<T>(a: seq<T>, b: seq<T>, c: seq<T>)
    ensures a + (b + c) == (a + b) + c
  {
  }
}
