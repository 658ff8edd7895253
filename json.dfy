/** The textual encoding used for values kept in session storage and sent as
    request bodies: JSON strings, nullable strings and integers as
    `JSON.stringify` writes them (section 25.5.2 of ECMA-262), with parsers
    that read them back as `JSON.parse` does. */
module Json {
  import opened Wrappers
  import opened Strings

  /** A lower-case hexadecimal digit, as `JSON.stringify` writes in `\u00XX`. */
  function LowerHex(d: nat): (c: char)
    requires d < 16
    ensures HexValue(c) == d
  {
    if d < 10 then ('0' as int + d) as char else ('a' as int + d - 10) as char
  }

  predicate IsHex(c: char) {
    '0' <= c <= '9' || 'a' <= c <= 'f' || 'A' <= c <= 'F'
  }

  /** The value of a hexadecimal digit (either case). */
  function HexValue(c: char): (d: nat)
    ensures d < 16
  {
    if '0' <= c <= '9' then c as int - '0' as int
    else if 'a' <= c <= 'f' then c as int - 'a' as int + 10
    else if 'A' <= c <= 'F' then c as int - 'A' as int + 10
    else 0
  }

  /** The characters with a two-character escape: `"`, `\\`, backspace, form feed, newline, return, tab. */
  predicate HasShortEscape(c: char) {
    c == '"' || c == '\\' || c as int == 0x08 || c as int == 0x0C || c == '\n' || c == '\r' || c == '\t'
  }

  /** The letter after the backslash in a two-character escape. */
  function ShortEscapeLetter(c: char): char
    requires HasShortEscape(c)
  {
    if c as int == 0x08 then 'b'
    else if c as int == 0x0C then 'f'
    else if c == '\n' then 'n'
    else if c == '\r' then 'r'
    else if c == '\t' then 't'
    else c
  }

  /** One character of a string literal: `"` and `\\` get a backslash, the
      control characters below U+0020 get their short escape or `\\u00XX`,
      every other character stands for itself. */
  function EscapeChar(c: char): (r: string)
    ensures |r| >= 1
    ensures c as int >= 0x20 && c != '"' && c != '\\' ==> r == [c]
    ensures !(c as int >= 0x20 && c != '"' && c != '\\') ==> |r| >= 2 && r[0] == '\\'
  {
    if HasShortEscape(c) then ['\\', ShortEscapeLetter(c)]
    else if c as int < 0x20 then ['\\', 'u', '0', '0', LowerHex(c as int / 16), LowerHex(c as int % 16)]
    else [c]
  }

  /** The body of a string literal. */
  function Escape(s: string): string
    decreases |s|
  {
    if |s| == 0 then "" else EscapeChar(s[0]) + Escape(s[1..])
  }

  /** `JSON.stringify` of a string. */
  function StringLiteral(s: string): string {
    "\"" + Escape(s) + "\""
  }

  /** `JSON.stringify` of a string that may be null. */
  function NullableLiteral(o: Option<string>): string {
    match o
    case None => "null"
    case Some(s) => StringLiteral(s)
  }

  /** `JSON.stringify` of an integer. */
  function IntLiteral(n: int): (r: string)
    ensures |r| >= 1
  {
    if n < 0 then "-" + NatToString(-n) else NatToString(n)
  }

  function Prepend(c: char, r: Option<(string, string)>): Option<(string, string)> {
    match r
    case None => None
    case Some((v, rest)) => Some(([c] + v, rest))
  }

  /** Reads one escape sequence, `s` being the text after its backslash;
      gives the character and the text after the sequence. A `\\u` escape
      that names a surrogate is refused, since it is no character on its own. */
  function ParseEscape(s: string): (r: Option<(char, string)>)
    ensures r.Some? ==> |r.value.1| < |s|
  {
    if |s| == 0 then None
    else if s[0] == '"' || s[0] == '\\' || s[0] == '/' then Some((s[0], s[1..]))
    else if s[0] == 'b' then Some((0x08 as char, s[1..]))
    else if s[0] == 'f' then Some((0x0C as char, s[1..]))
    else if s[0] == 'n' then Some(('\n', s[1..]))
    else if s[0] == 'r' then Some(('\r', s[1..]))
    else if s[0] == 't' then Some(('\t', s[1..]))
    else if s[0] == 'u' && |s| >= 5 && IsHex(s[1]) && IsHex(s[2]) && IsHex(s[3]) && IsHex(s[4]) then
      var n := HexValue(s[1]) * 4096 + HexValue(s[2]) * 256 + HexValue(s[3]) * 16 + HexValue(s[4]);
      if 0xD800 <= n <= 0xDFFF then None else Some((n as char, s[5..]))
    else None
  }

  /** Reads the body of a string literal up to its closing quote; gives the
      string and the text after the quote. A raw control character is refused. */
  function ParseChars(s: string): Option<(string, string)>
    decreases |s|
  {
    if |s| == 0 then None
    else if s[0] == '"' then Some(("", s[1..]))
    else if s[0] == '\\' then
      match ParseEscape(s[1..])
      case None => None
      case Some((c, rest)) => Prepend(c, ParseChars(rest))
    else if s[0] as int < 0x20 then None
    else Prepend(s[0], ParseChars(s[1..]))
  }

  function ParseString(s: string): Option<(string, string)> {
    if |s| > 0 && s[0] == '"' then ParseChars(s[1..]) else None
  }

  function ParseNullable(s: string): Option<(Option<string>, string)> {
    if StartsWith(s, "null") then Some((None, s[4..]))
    else
      match ParseString(s)
      case None => None
      case Some((v, rest)) => Some((Some(v), rest))
  }

  /** Strips the literal text `lit` from the front of `s`. */
  function Expect(lit: string, s: string): (r: Option<string>)
    ensures r.Some? <==> StartsWith(s, lit)
    ensures r.Some? ==> s == lit + r.value
  {
    if StartsWith(s, lit) then Some(s[|lit|..]) else None
  }

  lemma ExpectLiteral(lit: string, rest: string)
    ensures Expect(lit, lit + rest) == Some(rest)
  {
    assert (lit + rest)[..|lit|] == lit;
    assert (lit + rest)[|lit|..] == rest;
  }

  /** A `\\u00XX` escape of a control character reads back as that character. */
  lemma UnicodeEscapeParsed(c: char, tail: string)
    requires c as int < 0x20
    ensures ParseEscape(['u', '0', '0', LowerHex(c as int / 16), LowerHex(c as int % 16)] + tail) == Some((c, tail))
  {
    var h, l := LowerHex(c as int / 16), LowerHex(c as int % 16);
    var t := ['u', '0', '0', h, l] + tail;
    assert t[0] == 'u' && t[1] == '0' && t[2] == '0' && t[3] == h && t[4] == l && t[5..] == tail;
    assert IsHex(h) && IsHex(l);
    var n := HexValue(t[1]) * 4096 + HexValue(t[2]) * 256 + HexValue(t[3]) * 16 + HexValue(t[4]);
    assert n == c as int;
  }

  /** One escaped character reads back as itself, followed by the rest. */
  lemma EscapeCharParsed(c: char, tail: string)
    ensures ParseChars(EscapeChar(c) + tail) == Prepend(c, ParseChars(tail))
  {
    var s := EscapeChar(c) + tail;
    if HasShortEscape(c) {
      assert s[0] == '\\' && s[1] == ShortEscapeLetter(c) && s[2..] == tail;
    } else if c as int < 0x20 {
      var h, l := LowerHex(c as int / 16), LowerHex(c as int % 16);
      assert s == ['\\'] + (['u', '0', '0', h, l] + tail);
      assert s[1..] == ['u', '0', '0', h, l] + tail;
      UnicodeEscapeParsed(c, tail);
    } else {
      assert s[1..] == tail;
    }
  }

  /** A character read back after its escape, in front of text that reads as `w`. */
  lemma ParseConsStep(c: char, tail: string, w: string, after: string)
    requires ParseChars(tail) == Some((w, after))
    ensures ParseChars(EscapeChar(c) + tail) == Some(([c] + w, after))
  {
    EscapeCharParsed(c, tail);
  }

  /** The body of a literal reads back up to the closing quote at the front of `rest`. */
  lemma {:induction false} ParseEscaped(v: string, rest: string)
    requires |rest| > 0 && rest[0] == '"'
    ensures ParseChars(Escape(v) + rest) == Some((v, rest[1..]))
    decreases |v|
  {
    if |v| == 0 {
      assert Escape(v) + rest == rest;
    } else {
      var tail := Escape(v[1..]) + rest;
      ParseEscaped(v[1..], rest);
      EscapeCons(v, rest);
      ParseConsStep(v[0], tail, v[1..], rest[1..]);
      assert [v[0]] + v[1..] == v;
    }
  }

  lemma EscapeCons(v: string, rest: string)
    requires |v| > 0
    ensures Escape(v) + rest == EscapeChar(v[0]) + (Escape(v[1..]) + rest)
  {
  }

  /** Reading back a string literal gives the string and the text after it. */
  lemma StringRoundTrip(v: string, rest: string)
    ensures ParseString(StringLiteral(v) + rest) == Some((v, rest))
  {
    var s := StringLiteral(v) + rest;
    var closing := "\"" + rest;
    assert s[0] == '"';
    assert s[1..] == Escape(v) + closing;
    ParseEscaped(v, closing);
    assert closing[1..] == rest;
  }

  /** Reading back a nullable literal gives the value and the text after it. */
  lemma NullableRoundTrip(o: Option<string>, rest: string)
    ensures ParseNullable(NullableLiteral(o) + rest) == Some((o, rest))
  {
    match o
    case None =>
      assert ("null" + rest)[..4] == "null";
      assert ("null" + rest)[4..] == rest;
    case Some(v) =>
      var s := StringLiteral(v) + rest;
      assert s[0] == '"';
      assert !StartsWith(s, "null");
      StringRoundTrip(v, rest);
  }
}
