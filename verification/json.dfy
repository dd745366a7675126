/**
 * JSON values, and the one piece of JSON text the proxy writes itself:
 * `json.dumps({'error': message})`, the payload of every error event it
 * synthesises in a stream. `json.dumps` runs with `ensure_ascii` on, so every
 * character outside printable ASCII is written as a `\uXXXX` escape (a
 * surrogate pair above U+FFFF), and `"` and `\` are backslash-escaped.
 */
module Json {
  import opened Wrappers

  /** A decoded JSON document. Numbers with a fraction are kept as reals. */
  datatype Value =
    | Null
    | Bool(b: bool)
    | Int(i: int)
    | Float(x: real)
    | Str(s: string)
    | Array(items: seq<Value>)
    | Object(fields: map<string, Value>)

  /** The characters json.dumps may write: printable ASCII. */
  predicate Printable(c: char) {
    ' ' <= c <= '~'
  }

  /** The characters json.dumps copies into a string literal unchanged. */
  predicate Verbatim(c: char) {
    Printable(c) && c != '"' && c != '\\'
  }

  /** Value of a hexadecimal digit of either case, as a JSON reader accepts it. */
  function DigitValue(c: char): (d: Option<nat>)
    ensures d.Some? ==> d.value < 16
  {
    if '0' <= c <= '9' then Some(c as int - '0' as int)
    else if 'a' <= c <= 'f' then Some(c as int - 'a' as int + 10)
    else if 'A' <= c <= 'F' then Some(c as int - 'A' as int + 10)
    else None
  }

  /** The lower-case hexadecimal digit json.dumps writes for `n`. */
  function HexDigit(n: nat): (c: char)
    requires n < 16
    ensures '0' <= c <= '9' || 'a' <= c <= 'f'
    ensures DigitValue(c) == Some(n)
  {
    if n < 10 then ('0' as int + n) as char else ('a' as int + n - 10) as char
  }

  function ParseHex4(s: string): (r: Option<nat>)
    requires |s| == 4
    ensures r.Some? ==> r.value < 0x10000
  {
    match (DigitValue(s[0]), DigitValue(s[1]), DigitValue(s[2]), DigitValue(s[3]))
    case (Some(a), Some(b), Some(c), Some(d)) => Some(((a * 16 + b) * 16 + c) * 16 + d)
    case _ => None
  }

  /** The four digits of a `\uXXXX` escape; reading them back gives `n`. */
  function Hex4(n: nat): (r: string)
    requires n < 0x10000
    ensures |r| == 4
    ensures forall i :: 0 <= i < |r| ==> '0' <= r[i] <= '9' || 'a' <= r[i] <= 'f'
    ensures ParseHex4(r) == Some(n)
  {
    var a, b, c, d := n / 0x1000, n / 0x100 % 16, n / 16 % 16, n % 16;
    assert n / 0x100 == a * 16 + b;
    assert n / 16 == (a * 16 + b) * 16 + c;
    [HexDigit(a), HexDigit(b), HexDigit(c), HexDigit(d)]
  }

  /** How json.dumps (ensure_ascii on) writes one character inside a string literal. */
  function EscapeChar(c: char): (r: string)
    ensures 0 < |r|
    ensures forall i :: 0 <= i < |r| ==> Printable(r[i])
    ensures r[0] == '\\' || (r == [c] && Verbatim(c))
    ensures Verbatim(c) <==> r == [c]
  {
    if c == '"' then "\\\""
    else if c == '\\' then "\\\\"
    else if c == '\n' then "\\n"
    else if c == '\r' then "\\r"
    else if c == '\t' then "\\t"
    else if c == '\U{8}' then "\\b"
    else if c == '\U{C}' then "\\f"
    else if Printable(c) then [c]
    else if c as int < 0x10000 then "\\u" + Hex4(c as int)
    else
      var v := c as int - 0x10000;
      "\\u" + Hex4(0xD800 + v / 0x400) + "\\u" + Hex4(0xDC00 + v % 0x400)
  }

  /** The body of the string literal json.dumps writes for `s` (without the quotes). */
  function Escape(s: string): (r: string)
    ensures forall i :: 0 <= i < |r| ==> Printable(r[i])
    ensures |s| <= |r|
  {
    if s == [] then [] else EscapeChar(s[0]) + Escape(s[1..])
  }

  function Prepend(c: char, rest: Option<string>): Option<string> {
    match rest
    case Some(t) => Some([c] + t)
    case None => None
  }

  /** The scalar value a UTF-16 surrogate pair stands for. */
  function Combine(hi: nat, lo: nat): (c: char)
    requires 0xD800 <= hi < 0xDC00 && 0xDC00 <= lo < 0xE000
  {
    (0x10000 + (hi - 0xD800) * 0x400 + (lo - 0xDC00)) as char
  }

  /** The character a two-character escape `\\x` stands for, for every `x` JSON defines except `u`. */
  function ShortEscape(x: char): Option<char> {
    match x
    case '"' => Some('"')
    case '\\' => Some('\\')
    case '/' => Some('/')
    case 'n' => Some('\n')
    case 'r' => Some('\r')
    case 't' => Some('\t')
    case 'b' => Some('\U{8}')
    case 'f' => Some('\U{C}')
    case _ => None
  }

  /**
   * Reads the body of a JSON string literal back into the string it denotes;
   * None for a raw quote or control character and an unknown escape, which a
   * JSON reader rejects, and for a surrogate escape that is not part of a
   * pair, which a Dafny `char` cannot hold.
   */
  function Unescape(s: string): Option<string>
    decreases |s|
  {
    if s == [] then Some([])
    else if s[0] == '"' || s[0] < ' ' then None
    else if s[0] != '\\' then Prepend(s[0], Unescape(s[1..]))
    else if |s| < 2 then None
    else if ShortEscape(s[1]).Some? then Prepend(ShortEscape(s[1]).value, Unescape(s[2..]))
    else if s[1] != 'u' || |s| < 6 then None
    else UnescapeUnit(s, ParseHex4(s[2..6]))
  }

  /** Continues Unescape after a `\\uXXXX` escape whose digits read as `unit`. */
  function UnescapeUnit(s: string, unit: Option<nat>): Option<string>
    requires 6 <= |s|
    requires unit.Some? ==> unit.value < 0x10000
    decreases |s|, 0
  {
    match unit
    case None => None
    case Some(n) =>
      if n < 0xD800 || 0xE000 <= n then Prepend(n as char, Unescape(s[6..]))
      else if 0xDC00 <= n || |s| < 12 || s[6] != '\\' || s[7] != 'u' then None
      else match ParseHex4(s[8..12])
        case Some(m) =>
          if 0xDC00 <= m < 0xE000 then Prepend(Combine(n, m), Unescape(s[12..])) else None
        case None => None
  }

  lemma UnescapeVerbatim(c: char, t: string)
    requires Verbatim(c)
    ensures Unescape([c] + t) == Prepend(c, Unescape(t))
  {
    assert ([c] + t)[1..] == t;
  }

  lemma UnescapeShort(e: string, c: char, t: string)
    requires |e| == 2 && e[0] == '\\' && ShortEscape(e[1]) == Some(c)
    ensures Unescape(e + t) == Prepend(c, Unescape(t))
  {
    assert (e + t)[2..] == t;
  }

  lemma UnescapeBasic(c: char, t: string)
    requires c as int < 0x10000 && !Printable(c)
    ensures Unescape("\\u" + Hex4(c as int) + t) == Prepend(c, Unescape(t))
  {
    var s := "\\u" + Hex4(c as int) + t;
    assert s[2..6] == Hex4(c as int);
    assert s[6..] == t;
  }

  lemma UnescapePair(c: char, t: string)
    requires 0x10000 <= c as int
    ensures var v := c as int - 0x10000;
      Unescape("\\u" + Hex4(0xD800 + v / 0x400) + "\\u" + Hex4(0xDC00 + v % 0x400) + t)
      == Prepend(c, Unescape(t))
  {
    var v := c as int - 0x10000;
    var hi, lo := 0xD800 + v / 0x400, 0xDC00 + v % 0x400;
    var s := "\\u" + Hex4(hi) + "\\u" + Hex4(lo) + t;
    assert s[2..6] == Hex4(hi);
    assert s[6] == '\\' && s[7] == 'u';
    assert s[8..12] == Hex4(lo);
    assert s[12..] == t;
    assert Combine(hi, lo) == c;
  }

  /** Reading back one escaped character, followed by anything, yields that character first. */
  lemma UnescapeEscapeChar(c: char, t: string)
    ensures Unescape(EscapeChar(c) + t) == Prepend(c, Unescape(t))
  {
    if c == '"' || c == '\\' || c == '\n' || c == '\r' || c == '\t' || c == '\U{8}' || c == '\U{C}' {
      UnescapeShort(EscapeChar(c), c, t);
    } else if Printable(c) {
      UnescapeVerbatim(c, t);
    } else if c as int < 0x10000 {
      UnescapeBasic(c, t);
    } else {
      UnescapePair(c, t);
    }
  }

  /** json.dumps loses nothing: reading its string body back gives the original string. */
  lemma {:induction false} UnescapeEscape(s: string)
    ensures Unescape(Escape(s)) == Some(s)
  {
    if s != [] {
      UnescapeEscapeChar(s[0], Escape(s[1..]));
      UnescapeEscape(s[1..]);
      assert [s[0]] + s[1..] == s;
    }
  }

  /** Strings of plain printable ASCII without quotes or backslashes are written as they are. */
  lemma {:induction false} EscapeVerbatim(s: string)
    requires forall i :: 0 <= i < |s| ==> Verbatim(s[i])
    ensures Escape(s) == s
  {
    if s != [] {
      EscapeVerbatim(s[1..]);
      assert [s[0]] + s[1..] == s;
    }
  }

  const ErrorOpen := "{\"error\": \""
  const ErrorClose := "\"}"

  /** The text of `json.dumps({'error': message})`. */
  function ErrorObject(message: string): (r: string)
    ensures forall i :: 0 <= i < |r| ==> Printable(r[i])
  {
    ErrorOpen + Escape(message) + ErrorClose
  }

  /** A message of plain printable ASCII without quotes or backslashes appears in its error object as it is. */
  lemma ErrorObjectVerbatim(message: string)
    requires forall i :: 0 <= i < |message| ==> Verbatim(message[i])
    ensures ErrorObject(message) == ErrorOpen + message + ErrorClose
  {
    EscapeVerbatim(message);
  }

  /** Reads an `{"error": "..."}` object in exactly the layout json.dumps gives it. */
  function ParseErrorObject(p: string): Option<string> {
    var n := |ErrorOpen|;
    if |p| < n + |ErrorClose| || p[..n] != ErrorOpen || p[|p| - |ErrorClose|..] != ErrorClose then None
    else Unescape(p[n..|p| - |ErrorClose|])
  }

  /** An error object carries its message exactly. */
  lemma ErrorObjectRoundTrip(message: string)
    ensures ParseErrorObject(ErrorObject(message)) == Some(message)
  {
    var p := ErrorObject(message);
    var n := |ErrorOpen|;
    assert p[..n] == ErrorOpen;
    assert p[|p| - |ErrorClose|..] == ErrorClose;
    assert p[n..|p| - |ErrorClose|] == Escape(message);
    UnescapeEscape(message);
  }
}
