/** The text stored under the user key: `JSON.stringify(user)` for a `User`
    record, and the `JSON.parse` that reads it back. Strings are quoted as
    QuoteJSONString in section 25.5.2.3 of ECMA-262 quotes them. The decoder
    reads the canonical field layout the encoder writes, with any JSON string
    escape inside the strings (including escapes the encoder never writes,
    such as `\/` or `\u0041`, but not escapes of surrogate code units);
    every other layout is a parse failure. */
module UserJson {

  import opened Common
  import opened Numbers
  import opened Api

  /** A lower-case hexadecimal digit. */
  function HexDigit(d: nat): (c: char)
    requires d < 16
    ensures IsRadixDigit(c, 16) && DigitOf(c).value == d
  {
    "0123456789abcdef"[d]
  }

  /** The JSON text of one character inside a string literal. */
  function EscapeChar(c: char): (r: string)
    ensures |r| > 0 && r[0] != '"'
  {
    if c == '"' then "\\\""
    else if c == '\\' then "\\\\"
    else if c == '\U{8}' then "\\b"
    else if c == '\t' then "\\t"
    else if c == '\n' then "\\n"
    else if c == '\U{C}' then "\\f"
    else if c == '\r' then "\\r"
    else if c < ' ' then "\\u00" + [HexDigit(c as int / 16), HexDigit(c as int % 16)]
    else [c]
  }

  function EscapeBody(s: string): string
  {
    if s == [] then [] else EscapeChar(s[0]) + EscapeBody(s[1..])
  }

  /** A JSON string literal. */
  function Quote(s: string): string
  {
    "\"" + EscapeBody(s) + "\""
  }

  function BoolText(b: bool): string
  {
    if b then "true" else "false"
  }

  /** `JSON.stringify(user)`: the fields in the order the `User` interface
      declares them, without white space. */
  function EncodeUser(u: User): (r: string)
    ensures |r| > 0 && r[0] == '{'
  {
    "{\"id\":" + (Quote(u.id) +
    (",\"username\":" + (Quote(u.username) +
    (",\"email\":" + (Quote(u.email) +
    (",\"activated\":" + (BoolText(u.activated) +
    (",\"created_at\":" + (Quote(u.created_at) + "}")))))))))
  }

  /** The rest of `s` after the literal `lit`, if `s` starts with it. */
  function Literal(lit: string, s: string): Option<string>
  {
    if |lit| <= |s| && s[..|lit|] == lit then Some(s[|lit|..]) else None
  }

  /** The value of four hexadecimal digits. */
  function Hex4(s: string): nat
    requires |s| == 4 && forall i :: 0 <= i < 4 ==> IsRadixDigit(s[i], 16)
  {
    assert IsRadixDigit(s[0], 16) && IsRadixDigit(s[1], 16) && IsRadixDigit(s[2], 16) && IsRadixDigit(s[3], 16);
    DigitOf(s[0]).value * 4096 + DigitOf(s[1]).value * 256 + DigitOf(s[2]).value * 16 + DigitOf(s[3]).value
  }

  /** One character of a string literal, escaped or not, and how many
      characters of the text it takes up. Raw control characters, unknown
      escapes and `\u` escapes of surrogate code units are rejected. */
  function DecodeOne(s: string): (r: Option<(char, nat)>)
    requires s != [] && s[0] != '"'
    ensures r.Some? ==> 0 < r.value.1 <= |s|
  {
    if s[0] == '\\' then
      if |s| < 2 then None
      else if s[1] == '"' then Some(('"', 2))
      else if s[1] == '\\' then Some(('\\', 2))
      else if s[1] == '/' then Some(('/', 2))
      else if s[1] == 'b' then Some(('\U{8}', 2))
      else if s[1] == 'f' then Some(('\U{C}', 2))
      else if s[1] == 'n' then Some(('\n', 2))
      else if s[1] == 'r' then Some(('\r', 2))
      else if s[1] == 't' then Some(('\t', 2))
      else if s[1] == 'u' && |s| >= 6 && forall i :: 2 <= i < 6 ==> IsRadixDigit(s[i], 16) then
        var v := Hex4(s[2..6]);
        if 0xD800 <= v <= 0xDFFF then None else Some((v as char, 6))
      else None
    else if s[0] < ' ' then None
    else Some((s[0], 1))
  }

  /** The characters of a string literal up to its closing quote, and the
      text after that quote. */
  function ParseStringBody(s: string): Option<(string, string)>
    decreases |s|
  {
    if s == [] then None
    else if s[0] == '"' then Some(("", s[1..]))
    else
      var (c, n) :- DecodeOne(s);
      var (t, rest) :- ParseStringBody(s[n..]);
      Some(([c] + t, rest))
  }

  function ParseString(s: string): Option<(string, string)>
  {
    var body :- Literal("\"", s);
    ParseStringBody(body)
  }

  function ParseBool(s: string): Option<(bool, string)>
  {
    if Literal("true", s).Some? then Some((true, s[4..]))
    else if Literal("false", s).Some? then Some((false, s[5..]))
    else None
  }

  /** `JSON.parse` of the stored text, seen as a `User`. */
  function DecodeUser(s: string): Option<User>
  {
    var s1 :- Literal("{\"id\":", s);
    var (id, s2) :- ParseString(s1);
    var s3 :- Literal(",\"username\":", s2);
    var (username, s4) :- ParseString(s3);
    var s5 :- Literal(",\"email\":", s4);
    var (email, s6) :- ParseString(s5);
    var s7 :- Literal(",\"activated\":", s6);
    var (activated, s8) :- ParseBool(s7);
    var s9 :- Literal(",\"created_at\":", s8);
    var (createdAt, s10) :- ParseString(s9);
    var s11 :- Literal("}", s10);
    if s11 == [] then Some(User(id, username, email, activated, createdAt)) else None
  }

  lemma LiteralOfConcat(lit: string, t: string)
    ensures Literal(lit, lit + t) == Some(t)
  {
    assert (lit + t)[..|lit|] == lit;
    assert (lit + t)[|lit|..] == t;
  }

  lemma DecodeEscapedChar(c: char, t: string)
    ensures EscapeChar(c) + t != [] && (EscapeChar(c) + t)[0] != '"'
    ensures DecodeOne(EscapeChar(c) + t) == Some((c, |EscapeChar(c)|))
  {
    var e := EscapeChar(c);
    var s := e + t;
    assert s[0] == e[0];
    if c < ' ' && c != '\U{8}' && c != '\t' && c != '\n' && c != '\U{C}' && c != '\r' {
      assert s[1] == 'u' && |s| >= 6;
      assert s[2..6] == e[2..6] == ['0', '0', HexDigit(c as int / 16), HexDigit(c as int % 16)];
      assert Hex4(s[2..6]) == c as int;
    } else if |e| == 2 {
      assert s[1] == e[1];
    }
  }

  /** A string literal written by Quote is read back exactly, and reading
      stops right after its closing quote. */
  lemma {:induction false} ParseEscapedBody(s: string, rest: string)
    ensures ParseStringBody(EscapeBody(s) + "\"" + rest) == Some((s, rest))
    decreases |s|
  {
    var text := EscapeBody(s) + "\"" + rest;
    if s == [] {
      assert text == "\"" + rest;
      assert text[1..] == rest;
    } else {
      var e := EscapeChar(s[0]);
      var tail := EscapeBody(s[1..]) + "\"" + rest;
      assert text == e + tail;
      DecodeEscapedChar(s[0], tail);
      assert text[|e|..] == tail;
      ParseEscapedBody(s[1..], rest);
      assert [s[0]] + s[1..] == s;
    }
  }

  lemma ParseQuoted(s: string, rest: string)
    ensures ParseString(Quote(s) + rest) == Some((s, rest))
  {
    assert Quote(s) + rest == "\"" + (EscapeBody(s) + "\"" + rest);
    LiteralOfConcat("\"", EscapeBody(s) + "\"" + rest);
    ParseEscapedBody(s, rest);
  }

  lemma ParseBoolText(b: bool, rest: string)
    ensures ParseBool(BoolText(b) + rest) == Some((b, rest))
  {
    LiteralOfConcat(BoolText(b), rest);
    if !b {
      assert Literal("true", BoolText(b) + rest).None? by {
        assert (BoolText(b) + rest)[0] == 'f';
      }
    }
  }

  /** Storing a user and reading it back gives the same user: the JSON round
      trip the session code relies on is lossless. */
  lemma DecodeEncodeUser(u: User)
    ensures DecodeUser(EncodeUser(u)) == Some(u)
  {
    var tail10 := "}";
    var tail9 := Quote(u.created_at) + tail10;
    var tail8 := ",\"created_at\":" + tail9;
    var tail7 := BoolText(u.activated) + tail8;
    var tail6 := ",\"activated\":" + tail7;
    var tail5 := Quote(u.email) + tail6;
    var tail4 := ",\"email\":" + tail5;
    var tail3 := Quote(u.username) + tail4;
    var tail2 := ",\"username\":" + tail3;
    var tail1 := Quote(u.id) + tail2;
    assert EncodeUser(u) == "{\"id\":" + tail1;
    LiteralOfConcat("{\"id\":", tail1);
    ParseQuoted(u.id, tail2);
    LiteralOfConcat(",\"username\":", tail3);
    ParseQuoted(u.username, tail4);
    LiteralOfConcat(",\"email\":", tail5);
    ParseQuoted(u.email, tail6);
    LiteralOfConcat(",\"activated\":", tail7);
    ParseBoolText(u.activated, tail8);
    LiteralOfConcat(",\"created_at\":", tail9);
    ParseQuoted(u.created_at, tail10);
    LiteralOfConcat("}", "");
    assert tail10 == "}" + "";
  }

  /** Two different users are never stored as the same text. */
  lemma EncodeUserInjective(u: User, v: User)
    requires EncodeUser(u) == EncodeUser(v)
    ensures u == v
  {
    DecodeEncodeUser(u);
    DecodeEncodeUser(v);
  }
}
