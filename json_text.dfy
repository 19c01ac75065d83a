/**
 * The part of `JSON.stringify` the uninstall request uses: quoting strings and
 * writing an object whose members are all strings.  Escaping follows
 * QuoteJSONString of ECMAScript (section 25.5.2.3 of ECMA-262): the short
 * escapes for quote, backslash, backspace, form feed, newline, carriage return
 * and tab, `\u00xx` with lower-case hex digits for the other control
 * characters, every other character as itself.  A Dafny `char` is a Unicode
 * scalar value, so the lone-surrogate case cannot arise.
 *
 * `Unescape` is the inverse direction (the string grammar of JSON, RFC 8259
 * section 7), used to state that nothing is lost in the body.
 */
module JsonText {
  import opened Wrappers

  /** The letter of the two-character escape `JSON.stringify` writes for `c`, if any. */
  function ShortEscape(c: char): Option<char> {
    if c == '"' then Some('"')
    else if c == '\\' then Some('\\')
    else if c == '\U{8}' then Some('b')
    else if c == '\U{C}' then Some('f')
    else if c == '\n' then Some('n')
    else if c == '\r' then Some('r')
    else if c == '\t' then Some('t')
    else None
  }

  /** Lower-case hexadecimal digit of a value below 16. */
  function HexDigit(k: nat): char
    requires k < 16
  {
    if k < 10 then ('0' as int + k) as char else ('a' as int + k - 10) as char
  }

  function EscapeChar(c: char): string {
    match ShortEscape(c)
    case Some(x) => ['\\', x]
    case None =>
      if (c as int) < 0x20 then ['\\', 'u', '0', '0', HexDigit((c as int) / 16), HexDigit((c as int) % 16)]
      else [c]
  }

  /** The characters between the quotes of `JSON.stringify(s)`. */
  function Escape(s: string): string {
    if s == [] then [] else EscapeChar(s[0]) + Escape(s[1..])
  }

  /** `JSON.stringify` of a string. */
  function Quote(s: string): string {
    "\"" + Escape(s) + "\""
  }

  /** `JSON.stringify` of an object literal whose members, in insertion order, are all strings. */
  function StringifyObject(members: seq<(string, string)>): string {
    "{" + Members(members) + "}"
  }

  function Members(members: seq<(string, string)>): string {
    if members == [] then ""
    else if |members| == 1 then Quote(members[0].0) + ":" + Quote(members[0].1)
    else Quote(members[0].0) + ":" + Quote(members[0].1) + "," + Members(members[1..])
  }

  /** A character that JSON.stringify copies unchanged. */
  predicate Plain(c: char) {
    c != '"' && c != '\\' && (c as int) >= 0x20
  }

  // ---- the reverse direction --------------------------------------------

  function HexValue(d: char): (v: Option<nat>)
    ensures v.Some? ==> v.value < 16
  {
    if '0' <= d <= '9' then Some(d as int - '0' as int)
    else if 'a' <= d <= 'f' then Some(d as int - 'a' as int + 10)
    else if 'A' <= d <= 'F' then Some(d as int - 'A' as int + 10)
    else None
  }

  /** The value of four hex digits. */
  function CodeUnit(h: string): (v: Option<nat>)
    requires |h| == 4
    ensures v.Some? ==> v.value < 0x1_0000
  {
    match (HexValue(h[0]), HexValue(h[1]), HexValue(h[2]), HexValue(h[3]))
    case (Some(a), Some(b), Some(c), Some(d)) => Some(((a * 16 + b) * 16 + c) * 16 + d)
    case _ => None
  }

  /** The character a two-character escape `\x` denotes; JSON also allows `\/`. */
  function ShortUnescape(x: char): Option<char> {
    if x == '"' then Some('"')
    else if x == '\\' then Some('\\')
    else if x == '/' then Some('/')
    else if x == 'b' then Some('\U{8}')
    else if x == 'f' then Some('\U{C}')
    else if x == 'n' then Some('\n')
    else if x == 'r' then Some('\r')
    else if x == 't' then Some('\t')
    else None
  }

  function Prepend(c: char, r: Option<string>): Option<string> {
    match r
    case Some(s) => Some([c] + s)
    case None => None
  }

  /** The string denoted by the characters between the quotes of a JSON string, or None if they are not well formed. */
  function Unescape(s: string): Option<string>
    decreases |s|
  {
    if s == [] then Some([])
    else if s[0] == '\\' then
      if |s| < 2 then None
      else if ShortUnescape(s[1]).Some? then Prepend(ShortUnescape(s[1]).value, Unescape(s[2..]))
      else if s[1] == 'u' && |s| >= 6 then
        match CodeUnit(s[2..6])
        case Some(v) =>
          if v < 0xD800 || 0xE000 <= v then Prepend(v as char, Unescape(s[6..])) else None
        case None => None
      else None
    else if s[0] == '"' || (s[0] as int) < 0x20 then None
    else Prepend(s[0], Unescape(s[1..]))
  }

  // ---- properties --------------------------------------------------------

  /** Decoding the escape of one character gives that character back, whatever follows it. */
  lemma UnescapeEscapeChar(c: char, t: string)
    ensures Unescape(EscapeChar(c) + t) == Prepend(c, Unescape(t))
  {
    var s := EscapeChar(c) + t;
    match ShortEscape(c)
    case Some(x) =>
      assert s[0] == '\\' && s[1] == x && s[2..] == t;
    case None =>
      if (c as int) < 0x20 {
        UnescapeControl(c, t);
      } else {
        assert s[0] == c && s[1..] == t;
      }
  }

  /** The `\u00xx` case of `UnescapeEscapeChar`. */
  lemma UnescapeControl(c: char, t: string)
    requires ShortEscape(c).None? && (c as int) < 0x20
    ensures Unescape(EscapeChar(c) + t) == Prepend(c, Unescape(t))
  {
    var s := EscapeChar(c) + t;
    var hi, lo := (c as int) / 16, (c as int) % 16;
    assert s[0] == '\\' && s[1] == 'u' && ShortUnescape('u').None?;
    assert s[2..6] == ['0', '0', HexDigit(hi), HexDigit(lo)];
    assert HexValue(HexDigit(hi)) == Some(hi) && HexValue(HexDigit(lo)) == Some(lo);
    assert CodeUnit(s[2..6]) == Some(c as int);
    assert s[6..] == t;
  }

  /** Round trip: the quoted form of any string decodes back to that string. */
  lemma {:induction false} UnescapeEscape(s: string)
    ensures Unescape(Escape(s)) == Some(s)
  {
    if s != [] {
      UnescapeEscape(s[1..]);
      UnescapeEscapeChar(s[0], Escape(s[1..]));
      assert [s[0]] + s[1..] == s;
    }
  }

  /** Escaping is injective: distinct strings are written differently. */
  lemma EscapeInjective(a: string, b: string)
    requires Escape(a) == Escape(b)
    ensures a == b
  {
    UnescapeEscape(a);
    UnescapeEscape(b);
  }

  /**
   * Regrouping a concatenation, for any pieces.  Stated over parameters so that
   * the literal pieces of a JSON text are not unfolded character by character.
   */
  lemma Regroup(lb: string, k0: string, colon: string, dq: string, e: string, comma: string, m1: string, rb: string)
    ensures lb + (k0 + colon + (dq + e + dq) + comma + m1) + rb
         == (lb + k0 + colon + dq) + e + (dq + comma + m1 + rb)
  {
  }

  /** In a two-member object the first value, escaped, stands between two texts fixed by the rest. */
  lemma StringifyTwoMembers(k0: string, v0: string, k1: string, v1: string)
    ensures StringifyObject([(k0, v0), (k1, v1)])
         == ("{" + Quote(k0) + ":" + "\"") + Escape(v0) + ("\"" + "," + (Quote(k1) + ":" + Quote(v1)) + "}")
  {
    var second := Quote(k1) + ":" + Quote(v1);
    assert Members([(k1, v1)]) == second;
    assert Members([(k0, v0), (k1, v1)]) == Quote(k0) + ":" + Quote(v0) + "," + second by {
      assert [(k0, v0), (k1, v1)][1..] == [(k1, v1)];
    }
    assert "{" + (Quote(k0) + ":" + Quote(v0) + "," + second) + "}"
        == ("{" + Quote(k0) + ":" + "\"") + Escape(v0) + ("\"" + "," + second + "}") by {
      Regroup("{", Quote(k0), ":", "\"", Escape(v0), ",", second, "}");
    }
  }

  /** A string of plain characters is written as it is. */
  lemma {:induction false} EscapePlain(s: string)
    requires forall i :: 0 <= i < |s| ==> Plain(s[i])
    ensures Escape(s) == s
  {
    if s != [] {
      assert Plain(s[0]);
      EscapePlain(s[1..]);
    }
  }
}
