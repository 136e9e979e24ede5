/**
 JSON text as encoding/json writes it and as the consumer reads it (RFC 8259), for the documents the events use:
 strings, integers, arrays and objects, without insignificant whitespace.
 */
module Json {
  import opened Prelude
  import opened Hex
  import opened Utf8

  datatype Field = Field(name: bytes, value: Value)

  datatype Value = Str(text: bytes) | Num(number: int) | Arr(elems: seq<Value>) | Obj(fields: seq<Field>)

  datatype Parsed<T> = Parsed(value: T, rest: bytes)

  /* ---------- strings ---------- */

  /** The escape encoding/json writes for an ASCII character; None when it is written as it is. */
  function EscapeOf(c: byte): Option<bytes>
  {
    if c == '"' || c == '\\' then Some(['\\', c])
    else if c as int == 8 then Some("\\b")
    else if c as int == 12 then Some("\\f")
    else if c == '\n' then Some("\\n")
    else if c == '\r' then Some("\\r")
    else if c == '\t' then Some("\\t")
    else if (c as int) < 0x20 || c == '<' || c == '>' || c == '&'
    then Some("\\u00" + [HexDigit(c as int / 16 % 16), HexDigit(c as int % 16)])
    else None
  }

  /** The bytes written for the character of length `n` at the start of `s`; an ill-formed byte has n == 0. */
  function EscapeChar(s: bytes, n: nat): bytes
    requires s != [] && n == CharLength(s)
  {
    if n == 0 then "\\ufffd"
    else if n == 1 then (if EscapeOf(s[0]).Some? then EscapeOf(s[0]).value else [s[0]])
    else if s[..n] == EncodePoint(0x2028) then "\\u2028"
    else if s[..n] == EncodePoint(0x2029) then "\\u2029"
    else s[..n]
  }

  /** How many bytes of `s` one step of the encoder consumes. */
  function Step(s: bytes): (n: nat)
    requires s != []
    ensures 0 < n <= |s|
  {
    if CharLength(s) > 0 then CharLength(s) else 1
  }

  function Escape(s: bytes): bytes
  {
    if s == [] then [] else EscapeChar(s, CharLength(s)) + Escape(s[Step(s)..])
  }

  function PrintString(s: bytes): bytes
  {
    ['"'] + Escape(s) + ['"']
  }

  /** Four hexadecimal digits. */
  function ParseUnit(s: bytes): Option<int>
  {
    if |s| < 4 || HexValue(s[0]).None? || HexValue(s[1]).None? || HexValue(s[2]).None? || HexValue(s[3]).None? then None
    else
      Some(((HexValue(s[0]).value * 16 + HexValue(s[1]).value) * 16 + HexValue(s[2]).value) * 16 + HexValue(s[3]).value)
  }

  /** A \uXXXX escape, or a pair of them for a code point above U+FFFF; lone surrogates are refused. */
  function ParseUnicode(s: bytes): (r: Option<Parsed<bytes>>)
    ensures r.Some? ==> |r.value.rest| < |s|
  {
    match ParseUnit(s)
    case None => None
    case Some(u) =>
      if 0 <= u < 0xD800 || 0xE000 <= u <= 0xFFFF then Some(Parsed(EncodePoint(u), s[4..]))
      else if 0xD800 <= u < 0xDC00 && |s| >= 10 && s[4] == '\\' && s[5] == 'u' && ParseUnit(s[6..]).Some? &&
              0xDC00 <= ParseUnit(s[6..]).value < 0xE000
      then Some(Parsed(EncodePoint(0x10000 + (u - 0xD800) * 1024 + (ParseUnit(s[6..]).value - 0xDC00)), s[10..]))
      else None
  }

  function Simple(c: byte): Option<byte>
  {
    if c == '"' || c == '\\' || c == '/' then Some(c)
    else if c == 'b' then Some(8 as char)
    else if c == 'f' then Some(12 as char)
    else if c == 'n' then Some('\n')
    else if c == 'r' then Some('\r')
    else if c == 't' then Some('\t')
    else None
  }

  /** One character of a string literal: plain or escaped. */
  function ParseChar(s: bytes): (r: Option<Parsed<bytes>>)
    ensures r.Some? ==> |r.value.rest| < |s|
  {
    if s == [] || (s[0] as int) < 0x20 || s[0] == '"' then None
    else if s[0] == '\\' then
      if |s| < 2 then None
      else if s[1] == 'u' then ParseUnicode(s[2..])
      else match Simple(s[1])
        case None => None
        case Some(c) => Some(Parsed([c], s[2..]))
    else if CharLength(s) == 0 then None
    else Some(Parsed(s[..CharLength(s)], s[CharLength(s)..]))
  }

  /** The rest of a string literal, after its opening quote. */
  function ParseChars(s: bytes): (r: Option<Parsed<bytes>>)
    ensures r.Some? ==> |r.value.rest| < |s|
    decreases |s|
  {
    if s == [] then None
    else if s[0] == '"' then Some(Parsed([], s[1..]))
    else match ParseChar(s)
      case None => None
      case Some(first) =>
        match ParseChars(first.rest)
        case None => None
        case Some(more) => Some(Parsed(first.value + more.value, more.rest))
  }

  lemma HexDigitsRead(digits: bytes, n: int)
    requires 0 <= n < 256 && digits == ['0', '0', HexDigit(n / 16 % 16), HexDigit(n % 16)]
    ensures ParseUnit(digits) == Some(n)
  {
    HexRoundTrip(n / 16 % 16);
    HexRoundTrip(n % 16);
  }

  lemma HexEscapeReads(c: byte, e: bytes, tail: bytes)
    requires EscapeOf(c) == Some(e) && |e| > 2
    ensures e[0] == '\\' && ParseChar(e + tail) == Some(Parsed([c], tail))
  {
    var n := c as int;
    assert n < 0x80 && e == ['\\', 'u', '0', '0', HexDigit(n / 16 % 16), HexDigit(n % 16)];
    HexDigitsRead(e[2..], n);
    UnicodeEscapeReads(e[2..], tail, n);
    assert (e + tail)[2..] == e[2..] + tail;
    assert EncodePoint(n) == [c];
  }

  lemma AsciiEscapeReads(c: byte, tail: bytes)
    requires (c as int) < 0x80
    ensures var e := if EscapeOf(c).Some? then EscapeOf(c).value else [c];
            e != [] && e[0] != '"' && ParseChar(e + tail) == Some(Parsed([c], tail))
  {
    var e := if EscapeOf(c).Some? then EscapeOf(c).value else [c];
    if EscapeOf(c).None? {
      assert CharLength(e + tail) == 1;
      assert (e + tail)[..1] == [c] && (e + tail)[1..] == tail;
    } else if |e| == 2 {
      assert (e + tail)[2..] == tail;
    } else {
      HexEscapeReads(c, e, tail);
    }
  }

  lemma UnicodeEscapeReads(digits: bytes, tail: bytes, u: int)
    requires |digits| == 4 && ParseUnit(digits) == Some(u) && (0 <= u < 0xD800 || 0xE000 <= u <= 0xFFFF)
    ensures ParseUnicode(digits + tail) == Some(Parsed(EncodePoint(u), tail))
  {
    assert (digits + tail)[4..] == tail;
    assert ParseUnit(digits + tail) == ParseUnit(digits);
  }

  /** What one encoder step writes is read back as the sanitised character. */
  lemma CharReads(s: bytes, tail: bytes)
    requires s != []
    ensures var n, e := CharLength(s), EscapeChar(s, CharLength(s));
            && e != [] && e[0] != '"'
            && ParseChar(e + tail) == Some(Parsed(if n > 0 then s[..n] else REPLACEMENT, tail))
  {
    var n := CharLength(s);
    var e := EscapeChar(s, n);
    if n == 1 {
      AsciiEscapeReads(s[0], tail);
      assert s[..1] == [s[0]];
    } else if n == 0 || s[..n] == EncodePoint(0x2028) || s[..n] == EncodePoint(0x2029) {
      var u := if n == 0 then 0xFFFD else if s[..n] == EncodePoint(0x2028) then 0x2028 else 0x2029;
      assert EncodePoint(0xFFFD) == REPLACEMENT;
      UnicodeEscapeReads(e[2..], tail, u);
      assert (e + tail)[2..] == e[2..] + tail;
    } else {
      CharLengthTake(s);
      CharLengthPrefix(e, tail);
      assert (e + tail)[..n] == e && (e + tail)[n..] == tail;
    }
  }

  /** Reading back a printed string gives its sanitised form, for every string. */
  lemma {:induction false} StringReads(s: bytes, tail: bytes)
    ensures ParseChars(Escape(s) + ['"'] + tail) == Some(Parsed(Sanitize(s), tail))
  {
    var text: bytes := Escape(s) + ['"'] + tail;
    if s == [] {
      assert text == ['"'] + tail;
    } else {
      var e, more: bytes := EscapeChar(s, CharLength(s)), Escape(s[Step(s)..]) + ['"'] + tail;
      assert text == e + more;
      CharReads(s, more);
      StringReads(s[Step(s)..], tail);
    }
  }

  /* ---------- integers ---------- */

  predicate IsDigit(c: byte) { '0' <= c <= '9' }

  function Digits(n: nat): bytes
  {
    if n < 10 then [Byte('0' as int + n)] else Digits(n / 10) + [Byte('0' as int + n % 10)]
  }

  function PrintNum(n: int): bytes
  {
    if n < 0 then ['-'] + Digits(-n) else Digits(n)
  }

  function ParseDigits(s: bytes, acc: nat): (r: Parsed<nat>)
    ensures |r.rest| <= |s|
  {
    if s == [] || !IsDigit(s[0]) then Parsed(acc, s)
    else ParseDigits(s[1..], acc * 10 + (s[0] as int - '0' as int))
  }

  lemma {:induction false} DigitsRead(n: nat, tail: bytes)
    ensures Digits(n) != [] && IsDigit(Digits(n)[0])
    ensures ParseDigits(Digits(n) + tail, 0) == ParseDigits(tail, n)
  {
    if n < 10 {
      assert (Digits(n) + tail)[1..] == tail;
    } else {
      var d := [Byte('0' as int + n % 10)];
      DigitsRead(n / 10, d + tail);
      assert Digits(n) + tail == Digits(n / 10) + (d + tail);
      assert (d + tail)[1..] == tail;
    }
  }

  /* ---------- values ---------- */

  function Print(v: Value): bytes
    decreases v, 0
  {
    match v
    case Str(text) => PrintString(text)
    case Num(n) => PrintNum(n)
    case Arr(elems) => ['['] + PrintElems(elems) + [']']
    case Obj(fields) => ['{'] + PrintFields(fields) + ['}']
  }

  function PrintElems(elems: seq<Value>): bytes
    decreases elems
  {
    if elems == [] then []
    else Print(elems[0]) + (if |elems| == 1 then [] else [','] + PrintElems(elems[1..]))
  }

  function PrintFields(fields: seq<Field>): bytes
    decreases fields
  {
    if fields == [] then []
    else PrintField(fields[0]) + (if |fields| == 1 then [] else [','] + PrintFields(fields[1..]))
  }

  function PrintField(f: Field): bytes
    decreases f
  {
    PrintString(f.name) + [':'] + Print(f.value)
  }

  function ParseValue(s: bytes): (r: Option<Parsed<Value>>)
    ensures r.Some? ==> |r.value.rest| < |s|
    decreases |s|, 0
  {
    if s == [] then None
    else if s[0] == '"' then
      match ParseChars(s[1..])
      case None => None
      case Some(p) => Some(Parsed(Str(p.value), p.rest))
    else if IsDigit(s[0]) then
      var p := ParseDigits(s[1..], s[0] as int - '0' as int);
      Some(Parsed(Num(p.value), p.rest))
    else if s[0] == '-' then
      if |s| < 2 || !IsDigit(s[1]) then None
      else
        var p := ParseDigits(s[1..], 0);
        var n: int := p.value;
        Some(Parsed(Num(-n), p.rest))
    else if s[0] == '[' then
      if |s| >= 2 && s[1] == ']' then Some(Parsed(Arr([]), s[2..]))
      else match ParseElems(s[1..])
        case None => None
        case Some(p) => Some(Parsed(Arr(p.value), p.rest))
    else if s[0] == '{' then
      if |s| >= 2 && s[1] == '}' then Some(Parsed(Obj([]), s[2..]))
      else match ParseFields(s[1..])
        case None => None
        case Some(p) => Some(Parsed(Obj(p.value), p.rest))
    else None
  }

  /** Elements up to and including the closing bracket. */
  function ParseElems(s: bytes): (r: Option<Parsed<seq<Value>>>)
    ensures r.Some? ==> |r.value.rest| < |s|
    decreases |s|, 1
  {
    match ParseValue(s)
    case None => None
    case Some(p) =>
      if p.rest == [] then None
      else if p.rest[0] == ']' then Some(Parsed([p.value], p.rest[1..]))
      else if p.rest[0] == ',' then
        match ParseElems(p.rest[1..])
        case None => None
        case Some(q) => Some(Parsed([p.value] + q.value, q.rest))
      else None
  }

  /** Members up to and including the closing brace. */
  function ParseFields(s: bytes): (r: Option<Parsed<seq<Field>>>)
    ensures r.Some? ==> |r.value.rest| < |s|
    decreases |s|, 1
  {
    match ParseField(s)
    case None => None
    case Some(p) =>
      if p.rest == [] then None
      else if p.rest[0] == '}' then Some(Parsed([p.value], p.rest[1..]))
      else if p.rest[0] == ',' then
        match ParseFields(p.rest[1..])
        case None => None
        case Some(q) => Some(Parsed([p.value] + q.value, q.rest))
      else None
  }

  function ParseField(s: bytes): (r: Option<Parsed<Field>>)
    ensures r.Some? ==> |r.value.rest| < |s|
    decreases |s|, 0
  {
    if s == [] || s[0] != '"' then None
    else match ParseChars(s[1..])
      case None => None
      case Some(name) =>
        if name.rest == [] || name.rest[0] != ':' then None
        else match ParseValue(name.rest[1..])
          case None => None
          case Some(v) => Some(Parsed(Field(name.value, v.value), v.rest))
  }

  /** Every string of a document sanitised. */
  function Clean(v: Value): Value
    decreases v, 0
  {
    match v
    case Str(text) => Str(Sanitize(text))
    case Num(n) => v
    case Arr(elems) => Arr(CleanElems(elems))
    case Obj(fields) => Obj(CleanFields(fields))
  }

  function CleanElems(elems: seq<Value>): seq<Value>
    decreases elems
  {
    if elems == [] then [] else [Clean(elems[0])] + CleanElems(elems[1..])
  }

  function CleanFields(fields: seq<Field>): seq<Field>
    decreases fields
  {
    if fields == [] then []
    else [Field(Sanitize(fields[0].name), Clean(fields[0].value))] + CleanFields(fields[1..])
  }

  /* ---------- reading back what was printed ---------- */

  predicate Stops(tail: bytes) { tail == [] || !IsDigit(tail[0]) }

  lemma PrintedStart(v: Value)
    ensures Print(v) != [] && Print(v)[0] != ']' && Print(v)[0] != '}'
  {
    if v.Num? {
      DigitsRead(if v.number < 0 then -v.number else v.number, []);
    }
  }

  lemma DigitsReadInner(n: nat, tail: bytes)
    requires Stops(tail)
    ensures var s := Digits(n) + tail;
            && IsDigit(s[0])
            && ParseDigits(s, 0) == Parsed(n, tail)
            && ParseDigits(s[1..], s[0] as int - '0' as int) == Parsed(n, tail)
  {
    DigitsRead(n, tail);
    var s: bytes := Digits(n) + tail;
    assert ParseDigits(s, 0) == ParseDigits(s[1..], s[0] as int - '0' as int);
  }

  lemma MinusReads(s: bytes, n: nat, tail: bytes)
    requires s != [] && IsDigit(s[0]) && ParseDigits(s, 0) == Parsed(n, tail)
    ensures ParseValue(['-'] + s) == Some(Parsed(Num(0 - n), tail))
  {
    assert (['-'] + s)[1..] == s && (['-'] + s)[1] == s[0];
  }

  lemma PlusReads(s: bytes, n: nat, tail: bytes)
    requires s != [] && IsDigit(s[0]) && ParseDigits(s[1..], s[0] as int - '0' as int) == Parsed(n, tail)
    ensures ParseValue(s) == Some(Parsed(Num(n), tail))
  {
  }

  lemma NumReads(n: int, tail: bytes)
    requires Stops(tail)
    ensures ParseValue(PrintNum(n) + tail) == Some(Parsed(Num(n), tail))
  {
    var m := if n < 0 then -n else n;
    DigitsReadInner(m, tail);
    MinusReads(Digits(m) + tail, m, tail);
    PlusReads(Digits(m) + tail, m, tail);
    assert ['-'] + (Digits(m) + tail) == ['-'] + Digits(m) + tail;
  }

  lemma QuoteReads(s: bytes, text: bytes, tail: bytes)
    requires s != [] && s[0] == '"' && ParseChars(s[1..]) == Some(Parsed(text, tail))
    ensures ParseValue(s) == Some(Parsed(Str(text), tail))
  {
  }

  lemma PrintedString(text: bytes, tail: bytes, s: bytes)
    requires s == PrintString(text) + tail
    ensures s != [] && s[0] == '"' && s[1..] == Escape(text) + ['"'] + tail
  {
  }

  lemma StrReads(text: bytes, tail: bytes)
    ensures ParseValue(PrintString(text) + tail) == Some(Parsed(Str(Sanitize(text)), tail))
  {
    PrintedString(text, tail, PrintString(text) + tail);
    StringReads(text, tail);
    QuoteReads(PrintString(text) + tail, Sanitize(text), tail);
  }

  lemma Inside(open: bytes, body: bytes, close: bytes, tail: bytes, s: bytes)
    requires |open| == 1 && s == open + body + close + tail
    ensures s[0] == open[0] && s[1..] == body + close + tail
    ensures body != [] ==> s[1] == body[0]
  {
  }

  lemma ArrReads(body: bytes, elems: seq<Value>, tail: bytes)
    requires body != [] && body[0] != ']'
    requires ParseElems(body + [']'] + tail) == Some(Parsed(elems, tail))
    ensures ParseValue(['['] + body + [']'] + tail) == Some(Parsed(Arr(elems), tail))
  {
    Inside(['['], body, [']'], tail, ['['] + body + [']'] + tail);
  }

  lemma ObjReads(body: bytes, fields: seq<Field>, tail: bytes)
    requires body != [] && body[0] != '}'
    requires ParseFields(body + ['}'] + tail) == Some(Parsed(fields, tail))
    ensures ParseValue(['{'] + body + ['}'] + tail) == Some(Parsed(Obj(fields), tail))
  {
    Inside(['{'], body, ['}'], tail, ['{'] + body + ['}'] + tail);
  }

  lemma EmptyReads(tail: bytes)
    ensures ParseValue(['['] + [] + [']'] + tail) == Some(Parsed(Arr([]), tail))
    ensures ParseValue(['{'] + [] + ['}'] + tail) == Some(Parsed(Obj([]), tail))
  {
    assert (['['] + [] + [']'] + tail)[2..] == tail;
    assert (['{'] + [] + ['}'] + tail)[2..] == tail;
  }

  /** Reading back a printed document gives the document with every string sanitised. */
  lemma {:induction false} ValueReads(v: Value, tail: bytes)
    requires Stops(tail)
    ensures ParseValue(Print(v) + tail) == Some(Parsed(Clean(v), tail))
    decreases v, 0
  {
    match v
    case Str(text) => StrReads(text, tail);
    case Num(n) => NumReads(n, tail);
    case Arr(elems) =>
      EmptyReads(tail);
      if elems != [] {
        ElemsRead(elems, tail);
        PrintedStart(elems[0]);
        ArrReads(PrintElems(elems), CleanElems(elems), tail);
      }
    case Obj(fields) =>
      EmptyReads(tail);
      if fields != [] {
        FieldsRead(fields, tail);
        ObjReads(PrintFields(fields), CleanFields(fields), tail);
      }
  }

  lemma LastElemReads(s: bytes, v: Value, tail: bytes)
    requires ParseValue(s) == Some(Parsed(v, [']'] + tail))
    ensures ParseElems(s) == Some(Parsed([v], tail))
  {
    assert ([']'] + tail)[1..] == tail;
  }

  lemma NextElemReads(s: bytes, v: Value, more: bytes, rest: seq<Value>, tail: bytes)
    requires ParseValue(s) == Some(Parsed(v, [','] + more)) && ParseElems(more) == Some(Parsed(rest, tail))
    ensures ParseElems(s) == Some(Parsed([v] + rest, tail))
  {
    assert ([','] + more)[1..] == more;
  }

  lemma ElemsSplit(elems: seq<Value>, tail: bytes)
    requires elems != []
    ensures PrintElems(elems) + [']'] + tail ==
            Print(elems[0]) + if |elems| == 1 then [']'] + tail else [','] + (PrintElems(elems[1..]) + [']'] + tail)
  {
    Regroup(Print(elems[0]), [','], PrintElems(elems[1..]), [']'], tail);
  }

  lemma {:induction false} ElemsRead(elems: seq<Value>, tail: bytes)
    requires elems != []
    ensures ParseElems(PrintElems(elems) + [']'] + tail) == Some(Parsed(CleanElems(elems), tail))
    decreases elems
  {
    var s: bytes := PrintElems(elems) + [']'] + tail;
    ElemsSplit(elems, tail);
    if |elems| == 1 {
      ValueReads(elems[0], [']'] + tail);
      LastElemReads(s, Clean(elems[0]), tail);
      assert CleanElems(elems) == [Clean(elems[0])];
    } else {
      var more: bytes := PrintElems(elems[1..]) + [']'] + tail;
      ValueReads(elems[0], [','] + more);
      ElemsRead(elems[1..], tail);
      NextElemReads(s, Clean(elems[0]), more, CleanElems(elems[1..]), tail);
    }
  }

  lemma NameReads(name: bytes, after: bytes)
    ensures ParseChars((PrintString(name) + after)[1..]) == Some(Parsed(Sanitize(name), after))
  {
    PrintedString(name, after, PrintString(name) + after);
    StringReads(name, after);
  }

  lemma {:induction false} FieldReads(f: Field, tail: bytes)
    requires Stops(tail)
    ensures ParseField(PrintField(f) + tail) == Some(Parsed(Field(Sanitize(f.name), Clean(f.value)), tail))
    decreases f
  {
    var after: bytes := [':'] + (Print(f.value) + tail);
    assert PrintField(f) + tail == PrintString(f.name) + after;
    NameReads(f.name, after);
    assert after[1..] == Print(f.value) + tail;
    ValueReads(f.value, tail);
  }

  lemma LastFieldReads(s: bytes, f: Field, tail: bytes)
    requires ParseField(s) == Some(Parsed(f, ['}'] + tail))
    ensures ParseFields(s) == Some(Parsed([f], tail))
  {
    assert (['}'] + tail)[1..] == tail;
  }

  lemma NextFieldReads(s: bytes, f: Field, more: bytes, rest: seq<Field>, tail: bytes)
    requires ParseField(s) == Some(Parsed(f, [','] + more)) && ParseFields(more) == Some(Parsed(rest, tail))
    ensures ParseFields(s) == Some(Parsed([f] + rest, tail))
  {
    assert ([','] + more)[1..] == more;
  }

  lemma Regroup(p: bytes, x: bytes, m: bytes, y: bytes, t: bytes)
    ensures (p + (x + m)) + y + t == p + (x + (m + y + t))
    ensures p + [] + y + t == p + (y + t)
  {
  }

  lemma FieldsSplit(fields: seq<Field>, tail: bytes)
    requires fields != []
    ensures PrintFields(fields) + ['}'] + tail ==
            PrintField(fields[0]) +
            if |fields| == 1 then ['}'] + tail else [','] + (PrintFields(fields[1..]) + ['}'] + tail)
    ensures PrintFields(fields) != [] && PrintFields(fields)[0] == '"'
  {
    Regroup(PrintField(fields[0]), [','], PrintFields(fields[1..]), ['}'], tail);
    assert PrintField(fields[0])[0] == '"';
  }

  lemma {:induction false} FieldsRead(fields: seq<Field>, tail: bytes)
    requires fields != []
    ensures ParseFields(PrintFields(fields) + ['}'] + tail) == Some(Parsed(CleanFields(fields), tail))
    ensures PrintFields(fields) != [] && PrintFields(fields)[0] == '"'
    decreases fields
  {
    var s: bytes := PrintFields(fields) + ['}'] + tail;
    var first := Field(Sanitize(fields[0].name), Clean(fields[0].value));
    FieldsSplit(fields, tail);
    if |fields| == 1 {
      FieldReads(fields[0], ['}'] + tail);
      LastFieldReads(s, first, tail);
      assert CleanFields(fields) == [first];
    } else {
      var more: bytes := PrintFields(fields[1..]) + ['}'] + tail;
      FieldReads(fields[0], [','] + more);
      FieldsRead(fields[1..], tail);
      NextFieldReads(s, first, more, CleanFields(fields[1..]), tail);
    }
  }

  /** A whole text. */
  function Parse(s: bytes): Option<Value>
  {
    match ParseValue(s)
    case None => None
    case Some(p) => if p.rest == [] then Some(p.value) else None
  }

  lemma ParsePrinted(v: Value)
    ensures Parse(Print(v)) == Some(Clean(v))
  {
    ValueReads(v, []);
    assert Print(v) + [] == Print(v);
  }
}
