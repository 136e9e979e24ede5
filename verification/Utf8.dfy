/**
 UTF-8 as Go's utf8.ValidString and encoding/json see it: well-formed sequences are those of section 4 of RFC 3629, and
 every byte at which no such sequence starts is replaced by U+FFFD on its own.
 */
module Utf8 {
  import opened Prelude

  predicate In(c: byte, lo: int, hi: int)
  {
    lo <= c as int <= hi
  }

  /** Length of the well-formed character at the start of `s`; 0 when there is none. */
  function CharLength(s: bytes): (n: nat)
    ensures n <= |s| && n <= 4
  {
    if |s| >= 1 && In(s[0], 0x00, 0x7F) then 1
    else if |s| >= 2 && In(s[0], 0xC2, 0xDF) && In(s[1], 0x80, 0xBF) then 2
    else if |s| >= 3 && In(s[2], 0x80, 0xBF) && (
              || (In(s[0], 0xE0, 0xE0) && In(s[1], 0xA0, 0xBF))
              || (In(s[0], 0xE1, 0xEC) && In(s[1], 0x80, 0xBF))
              || (In(s[0], 0xED, 0xED) && In(s[1], 0x80, 0x9F))
              || (In(s[0], 0xEE, 0xEF) && In(s[1], 0x80, 0xBF))) then 3
    else if |s| >= 4 && In(s[2], 0x80, 0xBF) && In(s[3], 0x80, 0xBF) && (
              || (In(s[0], 0xF0, 0xF0) && In(s[1], 0x90, 0xBF))
              || (In(s[0], 0xF1, 0xF3) && In(s[1], 0x80, 0xBF))
              || (In(s[0], 0xF4, 0xF4) && In(s[1], 0x80, 0x8F))) then 4
    else 0
  }

  predicate Valid(s: bytes)
  {
    s == [] || (CharLength(s) > 0 && Valid(s[CharLength(s)..]))
  }

  const REPLACEMENT: bytes := ['\U{EF}', '\U{BF}', '\U{BD}']

  /** What encoding/json writes for a string: each ill-formed byte becomes U+FFFD. */
  function Sanitize(s: bytes): bytes
  {
    if s == [] then []
    else if CharLength(s) > 0 then s[..CharLength(s)] + Sanitize(s[CharLength(s)..])
    else REPLACEMENT + Sanitize(s[1..])
  }

  /** Replacing ill-formed bytes changes nothing exactly on the well-formed strings. */
  lemma {:induction false} SanitizeFixedIffValid(s: bytes)
    ensures Sanitize(s) == s <==> Valid(s)
  {
    if s != [] {
      var n := CharLength(s);
      if n > 0 {
        SanitizeFixedIffValid(s[n..]);
        assert s == s[..n] + s[n..];
        if Sanitize(s) == s {
          assert Sanitize(s)[n..] == Sanitize(s[n..]);
        }
      } else {
        CharLengthPrefix(REPLACEMENT, Sanitize(s[1..]));
        assert CharLength(Sanitize(s)) == 3;
      }
    }
  }

  predicate Ascii(s: bytes)
  {
    forall i :: 0 <= i < |s| ==> (s[i] as int) < 0x80
  }

  lemma {:induction false} AsciiIsClean(s: bytes)
    requires Ascii(s)
    ensures Sanitize(s) == s
  {
    if s != [] {
      AsciiIsClean(s[1..]);
      assert s == s[..1] + s[1..];
    }
  }

  lemma AsciiIsValid(s: bytes)
    requires Ascii(s)
    ensures Valid(s)
  {
    AsciiIsClean(s);
    SanitizeFixedIffValid(s);
  }

  lemma CharLengthPrefix(s: bytes, rest: bytes)
    requires CharLength(s) > 0
    ensures CharLength(s + rest) == CharLength(s)
  {
  }

  lemma CharLengthTake(s: bytes)
    requires CharLength(s) > 0
    ensures CharLength(s[..CharLength(s)]) == CharLength(s)
  {
  }

  /* ---------- code points: the independent reference ---------- */

  /** A Unicode scalar value (section 3 of RFC 3629: no surrogates). */
  predicate Scalar(cp: int)
  {
    0 <= cp < 0xD800 || 0xE000 <= cp <= 0x10FFFF
  }

  function Byte(n: int): byte
    requires 0 <= n < 256
  {
    n as char
  }

  function EncodePoint(cp: int): bytes
    requires Scalar(cp)
  {
    if cp < 0x80 then [Byte(cp)]
    else if cp < 0x800 then [Byte(0xC0 + cp / 64), Byte(0x80 + cp % 64)]
    else if cp < 0x10000 then [Byte(0xE0 + cp / 4096), Byte(0x80 + cp / 64 % 64), Byte(0x80 + cp % 64)]
    else [Byte(0xF0 + cp / 262144), Byte(0x80 + cp / 4096 % 64), Byte(0x80 + cp / 64 % 64), Byte(0x80 + cp % 64)]
  }

  function EncodePoints(cps: seq<int>): bytes
    requires forall cp :: cp in cps ==> Scalar(cp)
  {
    if cps == [] then [] else EncodePoint(cps[0]) + EncodePoints(cps[1..])
  }

  lemma PointLength(cp: int)
    requires Scalar(cp)
    ensures CharLength(EncodePoint(cp)) == |EncodePoint(cp)| > 0
  {
    if 0x800 <= cp < 0x10000 {
      assert cp / 64 / 64 == cp / 4096;
    } else if cp >= 0x10000 {
      assert cp / 4096 / 64 == cp / 262144;
    }
  }

  /** The code point of the first character. */
  function DecodePoint(s: bytes): (cp: int)
    requires CharLength(s) > 0
    ensures Scalar(cp)
  {
    var b := (i: nat) requires i < |s| => s[i] as int;
    match CharLength(s)
    case 1 => b(0)
    case 2 => (b(0) - 0xC0) * 64 + (b(1) - 0x80)
    case 3 => (b(0) - 0xE0) * 4096 + (b(1) - 0x80) * 64 + (b(2) - 0x80)
    case _ => (b(0) - 0xF0) * 262144 + (b(1) - 0x80) * 4096 + (b(2) - 0x80) * 64 + (b(3) - 0x80)
  }

  lemma Digits64(hi: int, lo: int)
    requires 0 <= lo < 64
    ensures (hi * 64 + lo) / 64 == hi && (hi * 64 + lo) % 64 == lo
  {
  }

  lemma DecodedPointEncodes(s: bytes)
    requires CharLength(s) > 0
    ensures EncodePoint(DecodePoint(s)) == s[..CharLength(s)]
  {
    match CharLength(s)
    case 1 => assert s[..1] == [s[0]];
    case 2 =>
      Digits64(s[0] as int - 0xC0, s[1] as int - 0x80);
      assert s[..2] == [s[0], s[1]];
    case 3 => Decoded3(s);
    case _ => Decoded4(s);
  }

  lemma Decoded3(s: bytes)
    requires CharLength(s) == 3
    ensures EncodePoint(DecodePoint(s)) == s[..3]
  {
    var a, b, c := s[0] as int - 0xE0, s[1] as int - 0x80, s[2] as int - 0x80;
    var cp := DecodePoint(s);
    assert cp == (a * 64 + b) * 64 + c;
    Digits64(a * 64 + b, c);
    Digits64(a, b);
    assert cp / 4096 == cp / 64 / 64;
    assert EncodePoint(cp) == [Byte(0xE0 + a), Byte(0x80 + b), Byte(0x80 + c)];
    assert s[..3] == [s[0], s[1], s[2]];
  }

  lemma Decoded4(s: bytes)
    requires CharLength(s) == 4
    ensures EncodePoint(DecodePoint(s)) == s[..4]
  {
    var a, b, c, d := s[0] as int - 0xF0, s[1] as int - 0x80, s[2] as int - 0x80, s[3] as int - 0x80;
    var cp := DecodePoint(s);
    assert cp == ((a * 64 + b) * 64 + c) * 64 + d;
    Digits64((a * 64 + b) * 64 + c, d);
    Digits64(a * 64 + b, c);
    Digits64(a, b);
    assert cp / 4096 == cp / 64 / 64 && cp / 262144 == cp / 4096 / 64;
    assert EncodePoint(cp) == [Byte(0xF0 + a), Byte(0x80 + b), Byte(0x80 + c), Byte(0x80 + d)];
    assert s[..4] == [s[0], s[1], s[2], s[3]];
  }

  ghost predicate Scalars(cps: seq<int>)
  {
    forall cp :: cp in cps ==> Scalar(cp)
  }

  lemma {:induction false} EncodedIsValid(cps: seq<int>)
    requires Scalars(cps)
    ensures Valid(EncodePoints(cps))
  {
    if cps != [] {
      var head, tail := EncodePoint(cps[0]), EncodePoints(cps[1..]);
      EncodedIsValid(cps[1..]);
      PointLength(cps[0]);
      CharLengthPrefix(head, tail);
      assert (head + tail)[|head|..] == tail;
    }
  }

  lemma {:induction false} ValidHasPoints(s: bytes) returns (cps: seq<int>)
    requires Valid(s)
    ensures Scalars(cps) && EncodePoints(cps) == s
  {
    if s == [] {
      cps := [];
    } else {
      var n := CharLength(s);
      var rest := ValidHasPoints(s[n..]);
      cps := [DecodePoint(s)] + rest;
      DecodedPointEncodes(s);
      assert cps[1..] == rest && s == s[..n] + s[n..];
    }
  }

  /** The validity check accepts exactly the encodings of sequences of Unicode scalar values. */
  lemma ValidIffEncoded(s: bytes)
    ensures Valid(s) <==> exists cps :: Scalars(cps) && EncodePoints(cps) == s
  {
    if Valid(s) {
      var cps := ValidHasPoints(s);
    }
    if cps :| Scalars(cps) && EncodePoints(cps) == s {
      EncodedIsValid(cps);
    }
  }

  ghost predicate StartsWithPoint(s: bytes)
  {
    exists cp :: Scalar(cp) && EncodePoint(cp) <= s
  }

  lemma StartsIff(s: bytes)
    ensures StartsWithPoint(s) <==> CharLength(s) > 0
  {
    if cp :| Scalar(cp) && EncodePoint(cp) <= s {
      var head := EncodePoint(cp);
      PointLength(cp);
      CharLengthPrefix(head, s[|head|..]);
      assert head + s[|head|..] == s;
    }
    if CharLength(s) > 0 {
      DecodedPointEncodes(s);
      assert EncodePoint(DecodePoint(s)) <= s;
    }
  }

  /** Well-formed characters stay as they are; a byte at which none starts becomes U+FFFD, and it goes on after it. */
  lemma {:induction false} SanitizeReplaces(cps: seq<int>, rest: bytes)
    requires Scalars(cps)
    ensures Sanitize(EncodePoints(cps) + rest) == EncodePoints(cps) + Sanitize(rest)
    ensures rest != [] && !StartsWithPoint(rest) ==> Sanitize(rest) == EncodePoint(0xFFFD) + Sanitize(rest[1..])
    decreases |cps|
  {
    StartsIff(rest);
    if cps == [] {
      assert [] + rest == rest;
    } else {
      SanitizeReplaces(cps[1..], rest);
      OnePointKept(EncodePoint(cps[0]), EncodePoints(cps[1..]) + rest, cps[0]);
      Regroup(EncodePoint(cps[0]), EncodePoints(cps[1..]), rest);
      Regroup(EncodePoint(cps[0]), EncodePoints(cps[1..]), Sanitize(rest));
    }
  }

  lemma OnePointKept(head: bytes, tail: bytes, cp: int)
    requires Scalar(cp) && head == EncodePoint(cp)
    ensures Sanitize(head + tail) == head + Sanitize(tail)
  {
    PointLength(cp);
    CharLengthPrefix(head, tail);
    assert (head + tail)[..|head|] == head && (head + tail)[|head|..] == tail;
  }
}
