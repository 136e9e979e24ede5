/**
 UUID texts (section 4 of RFC 9562) as uuid.Parse accepts them and uuid.String writes them: the canonical form, the
 urn:uuid: form, the braced form and the form without hyphens, with hexadecimal digits of either case.
 */
module Uuid {
  import opened Prelude
  import opened Hex
  import Utf8

  predicate IsUuid(u: seq<int>)
  {
    |u| == 32 && forall i :: 0 <= i < 32 ==> 0 <= u[i] < 16
  }

  /** 32 hexadecimal digits. */
  type Id = u: seq<int> | IsUuid(u) witness seq(32, _ => 0)

  datatype Layout = Canonical | Urn | Braced | Bare

  /** The values of a run of hexadecimal digits. */
  function Values(s: bytes): (r: Option<seq<int>>)
    ensures r.Some? ==> |r.value| == |s| && forall i :: 0 <= i < |s| ==> HexValue(s[i]) == Some(r.value[i])
    ensures r.Some? <==> forall i :: 0 <= i < |s| ==> HexValue(s[i]).Some?
  {
    if s == [] then Some([])
    else
      var rest := Values(s[1..]);
      assert (forall i :: 0 <= i < |s| ==> HexValue(s[i]).Some?) ==>
             HexValue(s[0]).Some? && forall i :: 0 <= i < |s[1..]| ==> HexValue(s[1..][i]).Some?;
      if HexValue(s[0]).None? || rest.None? then None
      else Some([HexValue(s[0]).value] + rest.value)
  }

  function Hyphenate(d: bytes): bytes
    requires |d| == 32
  {
    d[..8] + "-" + d[8..12] + "-" + d[12..16] + "-" + d[16..20] + "-" + d[20..]
  }

  function Bare32(s: bytes): Option<Id>
    requires |s| == 32
  {
    match Values(s)
    case None => None
    case Some(u) => Some(u)
  }

  function Hyphened(s: bytes): Option<Id>
    requires |s| == 36
  {
    if s[8] == '-' && s[13] == '-' && s[18] == '-' && s[23] == '-'
    then Bare32(s[..8] + s[9..13] + s[14..18] + s[19..23] + s[24..])
    else None
  }

  function Parse(s: bytes): Option<Id>
  {
    if |s| == 36 then Hyphened(s)
    else if |s| == 45 then (if s[..9] == "urn:uuid:" then Hyphened(s[9..]) else None)
    else if |s| == 38 then (if s[0] == '{' && s[37] == '}' then Hyphened(s[1..37]) else None)
    else if |s| == 32 then Bare32(s)
    else None
  }

  function HexText(u: seq<int>): (s: bytes)
    requires forall i :: 0 <= i < |u| ==> 0 <= u[i] < 16
    ensures |s| == |u| && forall i :: 0 <= i < |u| ==> s[i] == HexDigit(u[i])
  {
    if u == [] then [] else [HexDigit(u[0])] + HexText(u[1..])
  }

  /** The canonical lower-case text. */
  function Format(u: Id): bytes
  {
    Hyphenate(HexText(u))
  }

  /** What a UUID column keeps of a text: the canonical form of the UUID it spells. */
  function Normal(s: bytes): bytes
  {
    if Parse(s).Some? then Format(Parse(s).value) else s
  }

  ghost predicate CanonicalId(id: bytes)
  {
    exists u: Id :: id == Format(u)
  }

  /* ---------- the reference: spellings ---------- */

  function Render(layout: Layout, d: bytes): bytes
    requires |d| == 32
  {
    match layout
    case Canonical => Hyphenate(d)
    case Urn => "urn:uuid:" + Hyphenate(d)
    case Braced => "{" + Hyphenate(d) + "}"
    case Bare => d
  }

  /** `d` writes the digits of `u`, each in either case. */
  ghost predicate Writes(d: bytes, u: Id)
  {
    |d| == 32 && forall i :: 0 <= i < 32 ==> HexValue(d[i]) == Some(u[i])
  }

  ghost predicate Spells(s: bytes, u: Id)
  {
    exists layout, d :: Writes(d, u) && s == Render(layout, d)
  }

  lemma HyphenatedReads(d: bytes, u: Id)
    requires Writes(d, u)
    ensures Hyphened(Hyphenate(d)) == Some(u)
  {
    var s := Hyphenate(d);
    assert s[..8] == d[..8] && s[9..13] == d[8..12] && s[14..18] == d[12..16] && s[19..23] == d[16..20] &&
           s[24..] == d[20..];
    assert s[..8] + s[9..13] + s[14..18] + s[19..23] + s[24..] == d;
    BareReads(d, u);
  }

  lemma BareReads(d: bytes, u: Id)
    requires Writes(d, u)
    ensures Bare32(d) == Some(u)
  {
    assert forall i :: 0 <= i < |d| ==> HexValue(d[i]) == Some(u[i]);
    var v := Values(d).value;
    forall i | 0 <= i < 32 ensures v[i] == u[i] {
      assert HexValue(d[i]) == Some(v[i]);
    }
    assert v == u;
  }

  lemma HyphenedIsSpelling(s: bytes, u: Id) returns (d: bytes)
    requires |s| == 36 && Hyphened(s) == Some(u)
    ensures Writes(d, u) && s == Hyphenate(d)
  {
    d := s[..8] + s[9..13] + s[14..18] + s[19..23] + s[24..];
    assert d[..8] == s[..8] && d[8..12] == s[9..13] && d[12..16] == s[14..18] && d[16..20] == s[19..23] &&
           d[20..] == s[24..];
    assert s[8..9] == "-" && s[13..14] == "-" && s[18..19] == "-" && s[23..24] == "-";
  }

  lemma SpellingParses(layout: Layout, d: bytes, u: Id)
    requires Writes(d, u)
    ensures Parse(Render(layout, d)) == Some(u)
  {
    var s := Render(layout, d);
    HyphenatedReads(d, u);
    BareReads(d, u);
    match layout
    case Canonical =>
    case Urn => assert s[..9] == "urn:uuid:" && s[9..] == Hyphenate(d);
    case Braced => assert s[1..37] == Hyphenate(d);
    case Bare =>
  }

  lemma ParsedIsSpelling(s: bytes, u: Id)
    requires Parse(s) == Some(u)
    ensures Spells(s, u)
  {
    if |s| == 36 {
      var d := HyphenedIsSpelling(s, u);
      assert s == Render(Canonical, d);
    } else if |s| == 45 {
      var d := HyphenedIsSpelling(s[9..], u);
      assert s == s[..9] + s[9..] && s == Render(Urn, d);
    } else if |s| == 38 {
      var d := HyphenedIsSpelling(s[1..37], u);
      assert s == [s[0]] + s[1..37] + [s[37]] && s == Render(Braced, d);
    } else {
      assert Writes(s, u) && s == Render(Bare, s);
    }
  }

  /** The parser accepts exactly the spellings of a UUID and returns the UUID they spell. */
  lemma ParseIffSpells(s: bytes, u: Id)
    ensures Parse(s) == Some(u) <==> Spells(s, u)
  {
    if Parse(s) == Some(u) {
      ParsedIsSpelling(s, u);
    }
    if Spells(s, u) {
      var layout, d :| Writes(d, u) && s == Render(layout, d);
      SpellingParses(layout, d, u);
    }
  }

  /** The canonical text parses to the UUID it was made from. */
  lemma ParseFormat(u: Id)
    ensures Parse(Format(u)) == Some(u)
  {
    var d := HexText(u);
    forall i | 0 <= i < 32 ensures HexValue(d[i]) == Some(u[i]) {
      HexRoundTrip(u[i]);
    }
    SpellingParses(Canonical, d, u);
  }

  /** Two texts accepted by the parser get the same canonical key exactly when they spell the same UUID. */
  lemma SameKeyIffSameUuid(a: bytes, u: Id, b: bytes, v: Id)
    requires Spells(a, u) && Spells(b, v)
    ensures Parse(a) == Some(u) && Parse(b) == Some(v)
    ensures Format(Parse(a).value) == Format(Parse(b).value) <==> u == v
  {
    ParseIffSpells(a, u);
    ParseIffSpells(b, v);
    ParseFormat(u);
    ParseFormat(v);
  }

  lemma CanonicalIsNormal(id: bytes)
    requires CanonicalId(id)
    ensures Parse(id).Some? && Normal(id) == id && Utf8.Valid(id)
  {
    var u: Id :| id == Format(u);
    ParseFormat(u);
    FormatIsAscii(u);
    Utf8.AsciiIsValid(id);
  }

  lemma FormatIsAscii(u: Id)
    ensures Utf8.Ascii(Format(u))
  {
    var d := HexText(u);
    assert forall i :: 0 <= i < 32 ==> d[i] == HexDigit(u[i]) && (d[i] as int) < 0x80;
  }

  /** Position of the k-th digit in the canonical text. */
  function DigitAt(k: nat): nat
  {
    k + if k < 8 then 0 else if k < 12 then 1 else if k < 16 then 2 else if k < 20 then 3 else 4
  }

  /** The canonical text: 32 lower-case digits in groups of 8, 4, 4, 4 and 12. */
  lemma FormatIsCanonical(u: Id, k: nat)
    requires k < 32
    ensures |Format(u)| == 36
    ensures Format(u)[8] == Format(u)[13] == Format(u)[18] == Format(u)[23] == '-'
    ensures Format(u)[DigitAt(k)] as int == if u[k] < 10 then 48 + u[k] else 97 + u[k] - 10
  {
    var d := HexText(u);
    assert d[k] == HexDigit(u[k]);
    HexDigits(d[k], u[k]);
    assert Format(u)[DigitAt(k)] == d[k];
  }

  /** A UUID column keeps the canonical form of every spelling and leaves any other text alone. */
  lemma NormalIsCanonical(s: bytes, u: Id)
    ensures Spells(s, u) ==> Normal(s) == Format(u)
    ensures (forall v: Id :: !Spells(s, v)) ==> Normal(s) == s
  {
    ParseIffSpells(s, u);
    if Parse(s).Some? {
      ParseIffSpells(s, Parse(s).value);
    }
  }
}
