/**
 * `JSON.stringify` on strings and booleans, with a decoder for JSON string
 * literals as its partner. The encoding is the one of section 7 of RFC 8259
 * as ECMAScript's QuoteJSONString produces it: quotation mark and reverse
 * solidus escaped, the five control characters with short escapes use them,
 * every other control character below U+0020 becomes \u00XX with lower-case
 * hexadecimal digits, and everything else is copied.
 */
module Json {
  import opened Wrappers

  /** `JSON.stringify(b)` for a boolean. */
  function Boolean(b: bool): (r: string)
    ensures r == "true" <==> b
    ensures r == "false" <==> !b
  {
    if b then "true" else "false"
  }

  function HexDigit(n: nat): (c: char)
    requires n < 16
  {
    if n < 10 then ('0' as int + n) as char else ('a' as int + n - 10) as char
  }

  function HexValue(c: char): (r: Option<nat>)
    ensures r.Some? ==> r.value < 16
  {
    if '0' <= c <= '9' then Some(c as int - '0' as int)
    else if 'a' <= c <= 'f' then Some(c as int - 'a' as int + 10)
    else if 'A' <= c <= 'F' then Some(c as int - 'A' as int + 10)
    else None
  }

  /** The value of four hexadecimal digits. */
  function Hex4(s: string): (r: Option<nat>)
    requires |s| == 4
    ensures r.Some? ==> r.value < 0x1_0000
  {
    match (HexValue(s[0]), HexValue(s[1]), HexValue(s[2]), HexValue(s[3]))
    case (Some(a), Some(b), Some(c), Some(d)) => Some(((a * 16 + b) * 16 + c) * 16 + d)
    case _ => None
  }

  /** How one character appears inside a JSON string literal. */
  function EscapeChar(c: char): string {
    if c == '"' then "\\\""
    else if c == '\\' then "\\\\"
    else if c as int == 0x08 then "\\b"
    else if c == '\t' then "\\t"
    else if c == '\n' then "\\n"
    else if c as int == 0x0C then "\\f"
    else if c == '\r' then "\\r"
    else if c as int < 0x20 then "\\u00" + [HexDigit(c as int / 16), HexDigit(c as int % 16)]
    else [c]
  }

  function EscapeBody(s: string): string
    decreases |s|
  {
    if s == [] then [] else EscapeChar(s[0]) + EscapeBody(s[1..])
  }

  /** `JSON.stringify(s)` for a string. */
  function Quote(s: string): string {
    "\"" + EscapeBody(s) + "\""
  }

  /** The character a one-letter escape stands for. */
  function ShortEscape(e: char): Option<char> {
    if e == '"' then Some('"')
    else if e == '\\' then Some('\\')
    else if e == '/' then Some('/')
    else if e == 'b' then Some(8 as char)
    else if e == 'f' then Some(12 as char)
    else if e == 'n' then Some('\n')
    else if e == 'r' then Some('\r')
    else if e == 't' then Some('\t')
    else None
  }

  function Prepend(c: char, rest: Option<string>): Option<string> {
    match rest
    case Some(s) => Some([c] + s)
    case None => None
  }

  /**
   * Decodes the characters between the quotes of a JSON string literal;
   * fails on an unescaped quotation mark or control character, an unknown
   * escape, malformed hexadecimal digits, or a lone surrogate escape.
   */
  function Unescape(s: string): Option<string>
    decreases |s|
  {
    if s == [] then Some([])
    else if s[0] == '"' || s[0] as int < 0x20 then None
    else if s[0] != '\\' then Prepend(s[0], Unescape(s[1..]))
    else if |s| < 2 then None
    else if s[1] != 'u' then
      match ShortEscape(s[1])
      case Some(c) => Prepend(c, Unescape(s[2..]))
      case None => None
    else if |s| < 6 then None
    else
      match Hex4(s[2..6])
      case None => None
      case Some(v) =>
        if v < 0xD800 || 0xE000 <= v then Prepend(v as char, Unescape(s[6..]))
        else if 0xDC00 <= v || |s| < 12 || s[6..8] != "\\u" then None
        else
          match Hex4(s[8..12])
          case Some(w) =>
            if 0xDC00 <= w < 0xE000 then
              Prepend((0x1_0000 + (v - 0xD800) * 0x400 + (w - 0xDC00)) as char, Unescape(s[12..]))
            else None
          case None => None
  }

  /** Decodes a JSON string literal, quotes included. */
  function Decode(literal: string): Option<string> {
    if |literal| >= 2 && literal[0] == '"' && literal[|literal| - 1] == '"'
    then Unescape(literal[1..|literal| - 1])
    else None
  }

  lemma HexDigitValue(n: nat)
    requires n < 16
    ensures HexValue(HexDigit(n)) == Some(n)
  {
  }

  /** Decoding undoes the escape of one character, whatever follows it. */
  lemma UnescapeChar(c: char, rest: string)
    ensures Unescape(EscapeChar(c) + rest) == Prepend(c, Unescape(rest))
  {
    var e := EscapeChar(c) + rest;
    if c as int < 0x20 && c != '\t' && c != '\n' && c != '\r' && c as int != 0x08 && c as int != 0x0C {
      var hi, lo := c as int / 16, c as int % 16;
      HexDigitValue(hi);
      HexDigitValue(lo);
      assert e[..6] == ['\\', 'u', '0', '0', HexDigit(hi), HexDigit(lo)];
      assert e[2..6] == ['0', '0', HexDigit(hi), HexDigit(lo)];
      assert Hex4(e[2..6]) == Some(c as int);
      assert (c as int) as char == c;
      assert e[6..] == rest;
    } else if c == '"' || c == '\\' || c as int < 0x20 {
      assert e[2..] == rest;
    } else {
      assert e[1..] == rest;
    }
  }

  /** Round trip: decoding the escaped body gives back the original string. */
  lemma {:induction false} UnescapeEscapeBody(s: string)
    ensures Unescape(EscapeBody(s)) == Some(s)
    decreases |s|
  {
    if s != [] {
      UnescapeEscapeBody(s[1..]);
      UnescapeChar(s[0], EscapeBody(s[1..]));
      assert [s[0]] + s[1..] == s;
    }
  }

  /** Round trip: `JSON.parse(JSON.stringify(s)) === s` for every string. */
  lemma QuoteRoundTrip(s: string)
    ensures Decode(Quote(s)) == Some(s)
  {
    var q := Quote(s);
    assert q[1..|q| - 1] == EscapeBody(s);
    UnescapeEscapeBody(s);
  }

  /** Different strings have different encodings. */
  lemma QuoteInjective(s: string, t: string)
    requires Quote(s) == Quote(t)
    ensures s == t
  {
    QuoteRoundTrip(s);
    QuoteRoundTrip(t);
  }
}
