/**
 * The `Debug` text of a path (`{path:?}`): the path as a double-quoted
 * string literal. A path's text escapes each character as `char::escape_debug`
 * does, so `\0`, tab, carriage return, line feed, backslash, the double quote
 * and the single quote are written as two-character escapes, and every other
 * ASCII control character as `\u{..}` with lowercase hexadecimal digits.
 * `Unescape` reads such a literal back, so the text determines the path.
 */
module DebugText {
  import opened Wrappers

  /** Whether `c` is an ASCII control character that has no two-character escape. */
  predicate IsOtherControl(c: char) {
    (c as int < 0x20 || c as int == 0x7f)
    && c != '\0' && c != '\t' && c != '\r' && c != '\n'
  }

  function HexDigit(d: nat): (c: char)
    requires d < 16
    ensures IsHexDigit(c) && HexValue(c) == d
  {
    if d < 10 then ('0' as int + d) as char else ('a' as int + d - 10) as char
  }

  predicate IsHexDigit(c: char) {
    '0' <= c <= '9' || 'a' <= c <= 'f'
  }

  function HexValue(c: char): (d: nat)
    requires IsHexDigit(c)
    ensures d < 16
  {
    if c <= '9' then c as int - '0' as int else c as int - 'a' as int + 10
  }

  /** The escape of one character, as the `Debug` text of a string writes it. */
  function EscapeChar(c: char): (t: string)
    ensures |t| >= 1
    ensures |t| == 1 <==> t == [c]
  {
    match c
    case '\0' => "\\0"
    case '\t' => "\\t"
    case '\r' => "\\r"
    case '\n' => "\\n"
    case '\\' => "\\\\"
    case '"' => "\\\""
    case '\'' => "\\'"
    case _ =>
      if IsOtherControl(c) then
        var n := c as int;
        if n < 16 then "\\u{" + [HexDigit(n)] + "}"
        else "\\u{" + [HexDigit(n / 16), HexDigit(n % 16)] + "}"
      else [c]
  }

  function Escape(s: string): (t: string)
    ensures |t| >= |s|
  {
    if s == [] then [] else EscapeChar(s[0]) + Escape(s[1..])
  }

  /** `{path:?}`: the escaped path between double quotes. */
  function Quote(s: string): (t: string)
    ensures |t| >= 2 && t[0] == '"' && t[|t| - 1] == '"'
  {
    "\"" + Escape(s) + "\""
  }

  function Prepend(c: char, r: Option<string>): (r': Option<string>)
    ensures r'.Some? <==> r.Some?
    ensures r'.Some? ==> r'.value == [c] + r.value
  {
    if r.Some? then Some([c] + r.value) else None
  }

  /** The character a two-character escape `\x` stands for. */
  function UnescapeSimple(x: char): Option<char> {
    match x
    case '0' => Some('\0')
    case 't' => Some('\t')
    case 'r' => Some('\r')
    case 'n' => Some('\n')
    case '\\' => Some('\\')
    case '"' => Some('"')
    case '\'' => Some('\'')
    case _ => None
  }

  /** Reads the inside of a string literal back; `None` when it is not a well-formed escaped text. */
  function Unescape(t: string): Option<string>
    decreases |t|
  {
    if t == [] then Some([])
    else if t[0] == '"' then None
    else if t[0] != '\\' then Prepend(t[0], Unescape(t[1..]))
    else if |t| < 2 then None
    else if t[1] == 'u' then
      if |t| >= 5 && t[2] == '{' && IsHexDigit(t[3]) && t[4] == '}' then
        Prepend(HexValue(t[3]) as char, Unescape(t[5..]))
      else if |t| >= 6 && t[2] == '{' && IsHexDigit(t[3]) && IsHexDigit(t[4]) && t[5] == '}' then
        Prepend((16 * HexValue(t[3]) + HexValue(t[4])) as char, Unescape(t[6..]))
      else None
    else
      match UnescapeSimple(t[1])
      case Some(c) => Prepend(c, Unescape(t[2..]))
      case None => None
  }

  /** Whether `c` is written as itself in the `Debug` text. */
  predicate IsPlain(c: char) {
    c != '\\' && c != '"' && c != '\'' && !(c as int < 0x20 || c as int == 0x7f)
  }

  /** A string of plain characters is shown verbatim. */
  lemma {:induction false} EscapePlain(s: string)
    requires forall i | 0 <= i < |s| :: IsPlain(s[i])
    ensures Escape(s) == s
  {
    if s != [] {
      EscapePlain(s[1..]);
      assert [s[0]] + s[1..] == s;
    }
  }

  /** Reads a double-quoted literal back. */
  function Unquote(t: string): Option<string> {
    if |t| >= 2 && t[0] == '"' && t[|t| - 1] == '"' then Unescape(t[1..|t| - 1]) else None
  }

  /** Reading one escaped character back yields that character, whatever follows it. */
  lemma UnescapeEscapeChar(c: char, rest: string)
    ensures Unescape(EscapeChar(c) + rest) == Prepend(c, Unescape(rest))
  {
  }

  /** The escaped text of a string reads back as that string. */
  lemma {:induction false} EscapeRoundTrip(s: string)
    ensures Unescape(Escape(s)) == Some(s)
  {
    if s != [] {
      EscapeRoundTrip(s[1..]);
      UnescapeEscapeChar(s[0], Escape(s[1..]));
      assert [s[0]] + s[1..] == s;
    }
  }

  /** The quoted text of a string reads back as that string. */
  lemma QuoteRoundTrip(s: string)
    ensures Unquote(Quote(s)) == Some(s)
  {
    var t := Quote(s);
    assert t[1..|t| - 1] == Escape(s);
    EscapeRoundTrip(s);
  }

  /** Different strings have different quoted texts. */
  lemma QuoteInjective(s: string, s': string)
    requires Quote(s) == Quote(s')
    ensures s == s'
  {
    QuoteRoundTrip(s);
    QuoteRoundTrip(s');
  }
}
