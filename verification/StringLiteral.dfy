/**
  JSON string literals: the spelling between the quotation marks, the text it stands for, and the
  spelling the encoder chooses with HTML escaping off (section 7 of RFC 8259).
 */
module StringLiteral {

  // ---- the encoder's spelling ----

  function HexDigit(n: nat): char
    requires n < 16
  {
    if n < 10 then '0' + n as char else 'a' + (n - 10) as char
  }

  function HexCode(n: nat): string
    requires n < 0x10000
  {
    "\\u" + [HexDigit(n / 0x1000), HexDigit(n / 0x100 % 16), HexDigit(n / 16 % 16), HexDigit(n % 16)]
  }

  /** One character inside a literal; the two line separators of Unicode are always escaped. */
  function EscapeChar(c: char): (r: string)
    ensures r != []
  {
    if c == '\"' then "\\\""
    else if c == '\\' then "\\\\"
    else if c == '\U{8}' then "\\b"
    else if c == '\U{C}' then "\\f"
    else if c == '\n' then "\\n"
    else if c == '\r' then "\\r"
    else if c == '\t' then "\\t"
    else if c < ' ' || c == '\U{2028}' || c == '\U{2029}' then HexCode(c as int)
    else [c]
  }

  function Escape(s: string): string {
    if s == [] then [] else EscapeChar(s[0]) + Escape(s[1..])
  }

  // ---- what a spelling stands for ----

  predicate IsHex(c: char) {
    '0' <= c <= '9' || 'a' <= c <= 'f' || 'A' <= c <= 'F'
  }

  function HexValue(c: char): (n: nat)
    ensures n < 16
  {
    if '0' <= c <= '9' then c as int - '0' as int
    else if 'a' <= c <= 'f' then c as int - 'a' as int + 10
    else if 'A' <= c <= 'F' then c as int - 'A' as int + 10
    else 0
  }

  function CodeUnit(raw: string): (n: nat)
    requires |raw| >= 4
    ensures n < 0x10000
  {
    HexValue(raw[0]) * 0x1000 + HexValue(raw[1]) * 0x100 + HexValue(raw[2]) * 16 + HexValue(raw[3])
  }

  predicate SimpleEscape(c: char) {
    c == '\"' || c == '\\' || c == '/' || c == 'b' || c == 'f' || c == 'n' || c == 'r' || c == 't'
  }

  function SimpleChar(c: char): char {
    if c == 'b' then '\U{8}'
    else if c == 'f' then '\U{C}'
    else if c == 'n' then '\n'
    else if c == 'r' then '\r'
    else if c == 't' then '\t'
    else c
  }

  predicate HighHalf(n: nat) { 0xD800 <= n < 0xDC00 }

  predicate LowHalf(n: nat) { 0xDC00 <= n < 0xE000 }

  /** The second half of a surrogate pair stands right behind its first half. */
  predicate PairAt(raw: string)
    requires |raw| >= 6
  {
    HighHalf(CodeUnit(raw[2..])) && |raw| >= 12 && raw[6] == '\\' && raw[7] == 'u' && LowHalf(CodeUnit(raw[8..]))
  }

  /** Decoding; half a surrogate pair alone becomes the replacement character. */
  function Unescape(raw: string): string {
    if raw == [] then []
    else if raw[0] != '\\' then [raw[0]] + Unescape(raw[1..])
    else if |raw| < 2 then []
    else if raw[1] != 'u' then [SimpleChar(raw[1])] + Unescape(raw[2..])
    else if |raw| < 6 then []
    else if PairAt(raw) then
      var high, low := CodeUnit(raw[2..]) - 0xD800, CodeUnit(raw[8..]) - 0xDC00;
      [(0x10000 + high * 0x400 + low) as char] + Unescape(raw[12..])
    else
      var n := CodeUnit(raw[2..]);
      [if 0xD800 <= n < 0xE000 then '\U{FFFD}' else n as char] + Unescape(raw[6..])
  }

  /** A spelling the grammar allows. */
  predicate LiteralOk(raw: string) {
    if raw == [] then true
    else if raw[0] != '\\' then raw[0] >= ' ' && raw[0] != '\"' && LiteralOk(raw[1..])
    else
      && |raw| >= 2
      && (SimpleEscape(raw[1]) ||
          (raw[1] == 'u' && |raw| >= 6 && IsHex(raw[2]) && IsHex(raw[3]) && IsHex(raw[4]) && IsHex(raw[5])))
      && LiteralOk(raw[2..])
  }

  // ---- decoding inverts encoding ----

  lemma UnescapeFirst(c: char, rest: string)
    ensures Unescape(EscapeChar(c) + rest) == [c] + Unescape(rest)
  {
    var code := EscapeChar(c);
    var z := code + rest;
    assert z[|code|..] == rest && z[..|code|] == code;
    if |code| == 6 {
      UnescapeUnit(c, rest);
    } else if |code| == 2 {
      assert z[1] == code[1];
    }
  }

  lemma UnescapeUnit(c: char, rest: string)
    requires |EscapeChar(c)| == 6
    ensures Unescape(EscapeChar(c) + rest) == [c] + Unescape(rest)
  {
    var code, n := EscapeChar(c), c as int;
    var z := code + rest;
    assert z[0] == code[0] && z[1] == code[1] && z[6..] == rest;
    assert z[2..6] == code[2..];
    assert CodeUnit(z[2..]) == n by { HexBack(n); }
    assert !PairAt(z);
  }

  lemma HexBack(n: nat)
    requires n < 0x10000
    ensures CodeUnit(HexCode(n)[2..]) == n
  {
    var d := n / 16;
    assert n == 16 * d + n % 16 && n / 0x100 == d / 16 && n / 0x1000 == d / 16 / 16;
  }

  lemma {:induction false} UnescapeEscape(s: string)
    ensures Unescape(Escape(s)) == s
  {
    if s != [] {
      UnescapeFirst(s[0], Escape(s[1..]));
      UnescapeEscape(s[1..]);
    }
  }

  lemma EscapeCharOk(c: char, rest: string)
    requires LiteralOk(rest)
    ensures LiteralOk(EscapeChar(c) + rest)
  {
    var code := EscapeChar(c);
    var z := code + rest;
    if |code| == 6 {
      assert z[2..] == code[2..] + rest;
      HexDigitsOk(code[2..], rest);
    } else if |code| == 2 {
      assert z[2..] == rest;
    } else {
      assert z[1..] == rest;
    }
  }

  lemma {:induction false} HexDigitsOk(digits: string, rest: string)
    requires LiteralOk(rest) && forall i :: 0 <= i < |digits| ==> IsHex(digits[i])
    ensures LiteralOk(digits + rest)
  {
    if digits == [] {
      assert digits + rest == rest;
    } else {
      HexDigitsOk(digits[1..], rest);
      assert (digits + rest)[1..] == digits[1..] + rest;
    }
  }

  /** What the encoder writes is a spelling the grammar allows. */
  lemma {:induction false} EscapeOk(s: string)
    ensures LiteralOk(Escape(s))
  {
    if s != [] {
      EscapeOk(s[1..]);
      EscapeCharOk(s[0], Escape(s[1..]));
    }
  }

  // ---- where a literal ends ----

  /** The number of characters before the closing quotation mark. */
  function Run(z: string): nat {
    if z == [] || z[0] == '\"' then 0
    else if z[0] == '\\' && |z| > 1 then 2 + Run(z[2..])
    else 1 + Run(z[1..])
  }

  lemma {:induction false} RunOf(raw: string, x: string)
    requires LiteralOk(raw)
    ensures Run(raw + "\"" + x) == |raw|
  {
    var z := raw + "\"" + x;
    if raw != [] {
      var n := if raw[0] == '\\' then 2 else 1;
      RunOf(raw[n..], x);
      assert z[n..] == raw[n..] + "\"" + x;
      assert z[0] == raw[0];
    }
  }

  /** Two literals at the head of one text are the same. */
  lemma LiteralDecodes(a: string, b: string, x: string, y: string)
    requires LiteralOk(a) && LiteralOk(b) && a + "\"" + x == b + "\"" + y
    ensures a == b && x == y
  {
    RunOf(a, x);
    RunOf(b, y);
    assert a == (a + "\"" + x)[..|a|] && b == (b + "\"" + y)[..|b|];
    assert x == (a + "\"" + x)[|a| + 1..] && y == (b + "\"" + y)[|b| + 1..];
  }

  lemma {:induction false} LiteralChars(raw: string)
    requires LiteralOk(raw)
    ensures forall i :: 0 <= i < |raw| ==> raw[i] >= ' '
  {
    if raw != [] {
      var n := if raw[0] == '\\' then 2 else 1;
      LiteralChars(raw[n..]);
      forall i | 0 <= i < |raw| ensures raw[i] >= ' ' {
        if i >= n { assert raw[i] == raw[n..][i - n]; }
      }
    }
  }
}
