/**
 * The string escaper used by te_json_add_string: it turns text into the body of a
 * JSON string literal (section 7 of RFC 8259) and is a pure function of its input.
 *
 * Double quote, backslash and solidus get a two-character escape, as do backspace,
 * form feed, newline, carriage return and tab; every other control character and
 * DEL become `\u00xx` with lower-case hexadecimal digits; everything else is copied.
 * `Unescape` decodes such a body (without pairing surrogate escapes, which it refuses)
 * and is proved to undo the escaper: decoding the escape of any string gives it back.
 */
module JsonEscape {
  import opened Wrappers

  const Backspace: char := 8 as char
  const FormFeed: char := 12 as char
  const Delete: char := 0x7F as char

  /** Characters that may not appear raw in JSON text: C0 controls and DEL. */
  predicate IsControl(ch: char) {
    ch < ' ' || ch == Delete
  }

  /** Characters the escaper never copies literally. */
  predicate NeedsEscape(ch: char) {
    ch == '"' || ch == '\\' || ch == '/' || IsControl(ch)
  }

  predicate IsHexDigit(ch: char) {
    ('0' <= ch <= '9') || ('a' <= ch <= 'f') || ('A' <= ch <= 'F')
  }

  function HexDigitValue(ch: char): (d: nat)
    requires IsHexDigit(ch)
    ensures d < 16
  {
    if '0' <= ch <= '9' then ch as int - '0' as int
    else if 'a' <= ch <= 'f' then ch as int - 'a' as int + 10
    else ch as int - 'A' as int + 10
  }

  /** The lower-case hexadecimal digit for `d`. */
  function HexDigit(d: nat): (r: char)
    requires d < 16
    ensures IsHexDigit(r) && HexDigitValue(r) == d
    ensures !('A' <= r <= 'F')
  {
    if d < 10 then ('0' as int + d) as char else ('a' as int + d - 10) as char
  }

  /** The escaped form of one character. */
  function EscapeChar(ch: char): (r: string)
    ensures !NeedsEscape(ch) <==> r == [ch]
    ensures NeedsEscape(ch) ==> |r| in {2, 6} && r[0] == '\\'
    ensures ch in {'"', '\\', '/', Backspace, FormFeed, '\n', '\r', '\t'} ==> |r| == 2
    ensures IsControl(ch) && ch !in {Backspace, FormFeed, '\n', '\r', '\t'} ==>
              |r| == 6 && r[..4] == "\\u00" && !('A' <= r[4] <= 'F') && !('A' <= r[5] <= 'F')
  {
    if ch == '"' then "\\\""
    else if ch == '\\' then "\\\\"
    else if ch == '/' then "\\/"
    else if ch == Backspace then "\\b"
    else if ch == FormFeed then "\\f"
    else if ch == '\n' then "\\n"
    else if ch == '\r' then "\\r"
    else if ch == '\t' then "\\t"
    else if IsControl(ch) then "\\u00" + [HexDigit(ch as int / 16), HexDigit(ch as int % 16)]
    else [ch]
  }

  /** The body of the JSON string literal for `s`, without the surrounding quotes. */
  function Escape(s: string): string
    decreases |s|
  {
    if s == [] then [] else EscapeChar(s[0]) + Escape(s[1..])
  }

  /** Each character is escaped on its own, so escaping distributes over concatenation. */
  lemma {:induction false} EscapeAppend(s: string, t: string)
    ensures Escape(s + t) == Escape(s) + Escape(t)
    decreases |s|
  {
    if s == [] {
      assert s + t == t;
    } else {
      assert (s + t)[1..] == s[1..] + t;
      EscapeAppend(s[1..], t);
    }
  }

  /** The complete JSON string literal for `s`. */
  function Quote(s: string): string {
    "\"" + Escape(s) + "\""
  }

  /** No character is escaped into a raw control character. */
  lemma EscapeCharNoControl(ch: char)
    ensures forall i :: 0 <= i < |EscapeChar(ch)| ==> !IsControl(EscapeChar(ch)[i])
  {
    if IsControl(ch) && ch !in {Backspace, FormFeed, '\n', '\r', '\t'} {
      var hex := [HexDigit(ch as int / 16), HexDigit(ch as int % 16)];
      assert EscapeChar(ch) == "\\u00" + hex;
    }
  }

  /** The escaped text never holds a raw C0 control character, as section 7 of RFC 8259 demands,
    and never a raw DEL, which this escaper also writes as `\u007f`. */
  lemma {:induction false} EscapeNoControl(s: string)
    ensures forall i :: 0 <= i < |Escape(s)| ==> !IsControl(Escape(s)[i])
    decreases |s|
  {
    if s != [] {
      EscapeNoControl(s[1..]);
      EscapeCharNoControl(s[0]);
      var head, tail := EscapeChar(s[0]), Escape(s[1..]);
      assert forall i :: 0 <= i < |head + tail| ==> (head + tail)[i] == if i < |head| then head[i] else tail[i - |head|];
    }
  }

  /** Text with nothing to escape is copied unchanged. */
  lemma {:induction false} EscapePlain(s: string)
    requires forall i :: 0 <= i < |s| ==> !NeedsEscape(s[i])
    ensures Escape(s) == s
    decreases |s|
  {
    if s != [] {
      EscapePlain(s[1..]);
      assert [s[0]] + s[1..] == s;
    }
  }

  // ---------------------------------------------------------------------------
  // Reading side: the decoder of a string-literal body

  /** The character a two-character escape `\e` stands for. */
  function ShortEscapeValue(e: char): Option<char> {
    if e == '"' || e == '\\' || e == '/' then Some(e)
    else if e == 'b' then Some(Backspace)
    else if e == 'f' then Some(FormFeed)
    else if e == 'n' then Some('\n')
    else if e == 'r' then Some('\r')
    else if e == 't' then Some('\t')
    else None
  }

  function Cons(ch: char, rest: Option<string>): Option<string> {
    if rest.None? then None else Some([ch] + rest.value)
  }

  /** The value of the four hexadecimal digits after `\u`. */
  function Hex4Value(h: string): (v: nat)
    requires |h| == 4 && IsHexDigit(h[0]) && IsHexDigit(h[1]) && IsHexDigit(h[2]) && IsHexDigit(h[3])
    ensures v < 0x10000
  {
    ((HexDigitValue(h[0]) * 16 + HexDigitValue(h[1])) * 16 + HexDigitValue(h[2])) * 16 + HexDigitValue(h[3])
  }

  /**
   * Decodes the body of a JSON string literal, or gives None when the body is not
   * well formed: a raw quote or control character, or an unknown or truncated escape.
   * Surrogate code points are not paired up; a `\u` escape of one is refused.
   */
  function Unescape(t: string): Option<string>
    decreases |t|
  {
    if t == [] then Some([])
    else if t[0] == '\\' then
      if |t| >= 2 && ShortEscapeValue(t[1]).Some? then
        Cons(ShortEscapeValue(t[1]).value, Unescape(t[2..]))
      else if |t| >= 6 && t[1] == 'u' && IsHexDigit(t[2]) && IsHexDigit(t[3]) && IsHexDigit(t[4]) && IsHexDigit(t[5]) then
        var code := Hex4Value(t[2..6]);
        if code < 0xD800 || 0xE000 <= code then Cons(code as char, Unescape(t[6..])) else None
      else None
    else if t[0] == '"' || t[0] < ' ' then None
    else Cons(t[0], Unescape(t[1..]))
  }

  /** Decoding an escaped character gives back that character. */
  lemma UnescapeEscapeChar(ch: char, rest: string)
    ensures Unescape(EscapeChar(ch) + rest) == Cons(ch, Unescape(rest))
  {
    var t := EscapeChar(ch) + rest;
    if !NeedsEscape(ch) {
      assert t[1..] == rest;
    } else if IsControl(ch) && ch !in {Backspace, FormFeed, '\n', '\r', '\t'} {
      var hi, lo := ch as int / 16, ch as int % 16;
      assert t[2..6] == ['0', '0', HexDigit(hi), HexDigit(lo)];
      assert Hex4Value(t[2..6]) == hi * 16 + lo == ch as int;
      assert t[6..] == rest;
    } else {
      assert t[2..] == rest;
    }
  }

  /** Escaping loses nothing: decoding the escaped text gives back the original. */
  lemma {:induction false} UnescapeEscape(s: string)
    ensures Unescape(Escape(s)) == Some(s)
  {
    if s != [] {
      UnescapeEscapeChar(s[0], Escape(s[1..]));
      UnescapeEscape(s[1..]);
      assert [s[0]] + s[1..] == s;
    }
  }

  /** Different texts never escape to the same body. */
  lemma EscapeInjective(s: string, t: string)
    requires Escape(s) == Escape(t)
    ensures s == t
  {
    UnescapeEscape(s);
    UnescapeEscape(t);
  }
}
