/** Hexadecimal digits. */
module Hex {
  import opened Prelude

  function HexDigit(n: int): byte
    requires 0 <= n < 16
  {
    "0123456789abcdef"[n]
  }

  function HexValue(c: byte): (r: Option<int>)
    ensures r.Some? ==> 0 <= r.value < 16
  {
    if '0' <= c <= '9' then Some(c as int - '0' as int)
    else if 'a' <= c <= 'f' then Some(c as int - 'a' as int + 10)
    else if 'A' <= c <= 'F' then Some(c as int - 'A' as int + 10)
    else None
  }

  lemma HexRoundTrip(n: int)
    requires 0 <= n < 16
    ensures HexValue(HexDigit(n)) == Some(n)
  {
  }

  /** The digits that are read, in either case, and the lower-case ones that are written. */
  lemma HexDigits(c: byte, n: int)
    requires 0 <= n < 16
    ensures HexValue(c) == Some(n) <==>
            || (n < 10 && c as int == 48 + n)
            || (n >= 10 && (c as int == 97 + n - 10 || c as int == 65 + n - 10))
    ensures HexDigit(n) as int == if n < 10 then 48 + n else 97 + n - 10
  {
  }
}
