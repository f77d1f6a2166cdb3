/** The two number conversions the application relies on: the global
    `parseInt(string)` with no radix argument (section 19.2.5 of ECMA-262)
    and the decimal rendering of an integer (`n.toString()`, and `${n}` in a
    template literal). */
module Numbers {

  import opened Common

  /** A JavaScript number as far as `parseInt` can produce one: NaN or an
      integer. Negative zero is the integer 0. */
  datatype Number = NaN | Int(value: int)

  /** StrWhiteSpaceChar of ECMA-262: WhiteSpace (TAB, VT, FF, ZWNBSP and the
      Space_Separator category) and LineTerminator (LF, CR, LS, PS). */
  predicate IsStrWhiteSpace(c: char)
  {
    || c == '\t' || c == '\U{B}' || c == '\U{C}' || c == '\U{FEFF}'
    || c == ' ' || c == '\U{A0}' || c == '\U{1680}'
    || ('\U{2000}' <= c <= '\U{200A}')
    || c == '\U{202F}' || c == '\U{205F}' || c == '\U{3000}'
    || c == '\n' || c == '\r' || c == '\U{2028}' || c == '\U{2029}'
  }

  /** TrimString(s, start): drops the leading white space. */
  function TrimStart(s: string): (r: string)
    ensures r == [] || !IsStrWhiteSpace(r[0])
  {
    if |s| > 0 && IsStrWhiteSpace(s[0]) then TrimStart(s[1..]) else s
  }

  /** The value of a digit character in radix 16 or less, if it is one. */
  function DigitOf(c: char): Option<nat>
  {
    if '0' <= c <= '9' then Some(c as int - '0' as int)
    else if 'a' <= c <= 'f' then Some(c as int - 'a' as int + 10)
    else if 'A' <= c <= 'F' then Some(c as int - 'A' as int + 10)
    else None
  }

  predicate IsRadixDigit(c: char, radix: nat)
  {
    DigitOf(c).Some? && DigitOf(c).value < radix
  }

  /** The length of the longest prefix of `s` made of radix-`radix` digits. */
  function DigitPrefixLength(s: string, radix: nat): (n: nat)
    ensures n <= |s|
    ensures forall i :: 0 <= i < n ==> IsRadixDigit(s[i], radix)
    ensures n == |s| || !IsRadixDigit(s[n], radix)
  {
    if |s| > 0 && IsRadixDigit(s[0], radix) then 1 + DigitPrefixLength(s[1..], radix) else 0
  }

  /** The mathematical value of a digit string, most significant digit first. */
  function DigitsValue(s: string, radix: nat): nat
    requires forall i :: 0 <= i < |s| ==> IsRadixDigit(s[i], radix)
  {
    if s == [] then 0
    else
      var last := s[|s| - 1];
      assert IsRadixDigit(last, radix);
      DigitsValue(s[..|s| - 1], radix) * radix + DigitOf(last).value
  }

  /** `parseInt(input)` with the radix left undefined: skip leading white
      space, take an optional sign, switch to radix 16 after a "0x" or "0X"
      prefix (radix 10 otherwise), read the longest digit prefix, and answer
      NaN when that prefix is empty. */
  function ParseInt(input: string): Number
  {
    ParseSigned(TrimStart(input))
  }

  /** Steps 3 to 5: the sign, then the magnitude of what follows it. */
  function ParseSigned(s: string): Number
  {
    if |s| > 0 && s[0] == '-' then Negate(ParseMagnitude(s[1..]))
    else if |s| > 0 && s[0] == '+' then ParseMagnitude(s[1..])
    else ParseMagnitude(s)
  }

  function Negate(n: Number): Number
  {
    match n
    case NaN => NaN
    case Int(v) => Int(-v)
  }

  /** Steps 6 to 14 with the radix undefined: a "0x"/"0X" prefix selects
      radix 16, anything else radix 10. */
  function ParseMagnitude(s: string): Number
  {
    if |s| >= 2 && s[0] == '0' && (s[1] == 'x' || s[1] == 'X') then ParseDigits(s[2..], 16)
    else ParseDigits(s, 10)
  }

  /** Steps 11 to 14: the longest digit prefix, NaN when it is empty. */
  function ParseDigits(z: string, radix: nat): Number
  {
    var end := DigitPrefixLength(z, radix);
    if end == 0 then NaN else Int(DigitsValue(z[..end], radix))
  }

  function DecimalDigit(d: nat): (c: char)
    requires d < 10
    ensures IsRadixDigit(c, 10) && DigitOf(c).value == d
  {
    "0123456789"[d]
  }

  /** The decimal numeral of a natural number, without leading zeros. */
  function NatToDecimal(n: nat): (r: string)
    ensures |r| > 0
    ensures forall i :: 0 <= i < |r| ==> IsRadixDigit(r[i], 10)
    ensures r[0] == '0' ==> n == 0 && r == "0"
    decreases n
  {
    if n < 10 then [DecimalDigit(n)] else NatToDecimal(n / 10) + [DecimalDigit(n % 10)]
  }

  /** `n.toString()` for an integer (below 10^21, where JavaScript switches
      to exponent notation; see the README). */
  function IntToString(n: int): (r: string)
    ensures |r| > 0
  {
    if n < 0 then "-" + NatToDecimal(-n) else NatToDecimal(n)
  }

  lemma {:induction false} DecimalValue(n: nat)
    ensures DigitsValue(NatToDecimal(n), 10) == n
    decreases n
  {
    if n >= 10 {
      var d := NatToDecimal(n / 10);
      DecimalValue(n / 10);
      var r := d + [DecimalDigit(n % 10)];
      assert r[..|r| - 1] == d;
    }
  }

  /** `parseInt` reads back every integer that `toString` writes. */
  lemma ParseIntOfToString(n: int)
    ensures ParseInt(IntToString(n)) == Int(n)
  {
    var m: nat := if n < 0 then -n else n;
    var d := NatToDecimal(m);
    DecimalValue(m);
    assert DigitPrefixLength(d, 10) == |d|;
    assert d[..|d|] == d;
    if n < 0 {
      var s := "-" + d;
      assert TrimStart(s) == s;
      assert s[1..] == d;
    } else {
      assert TrimStart(d) == d;
    }
  }

  lemma {:induction false} TrimStartSkips(ws: string, s: string)
    requires forall i :: 0 <= i < |ws| ==> IsStrWhiteSpace(ws[i])
    ensures TrimStart(ws + s) == TrimStart(s)
  {
    if ws != [] {
      assert (ws + s)[0] == ws[0] && IsStrWhiteSpace(ws[0]);
      assert (ws + s)[1..] == ws[1..] + s;
      TrimStartSkips(ws[1..], s);
      assert TrimStart(ws + s) == TrimStart(ws[1..] + s);
    } else {
      assert ws + s == s;
    }
  }

  /** Leading white space never changes what `parseInt` reads. */
  lemma ParseIntSkipsWhiteSpace(ws: string, s: string)
    requires forall i :: 0 <= i < |ws| ==> IsStrWhiteSpace(ws[i])
    ensures ParseInt(ws + s) == ParseInt(s)
  {
    TrimStartSkips(ws, s);
  }

  lemma {:induction false} DigitPrefixOfConcat(d: string, t: string, radix: nat)
    requires forall i :: 0 <= i < |d| ==> IsRadixDigit(d[i], radix)
    requires t == [] || !IsRadixDigit(t[0], radix)
    ensures DigitPrefixLength(d + t, radix) == |d|
  {
    if d != [] {
      assert (d + t)[1..] == d[1..] + t;
      DigitPrefixOfConcat(d[1..], t, radix);
    } else {
      assert d + t == t;
    }
  }

  /** The magnitude of a decimal numeral followed by text that neither
      continues it nor turns its leading 0 into a hexadecimal prefix. */
  lemma MagnitudeOfNumeral(d: string, t: string)
    requires |d| > 0 && forall i :: 0 <= i < |d| ==> IsRadixDigit(d[i], 10)
    requires t == [] || (!IsRadixDigit(t[0], 10) && (d != "0" || (t[0] != 'x' && t[0] != 'X')))
    ensures ParseMagnitude(d + t) == Int(DigitsValue(d, 10))
  {
    var s := d + t;
    assert s[0] == d[0];
    assert |s| >= 2 ==> s[1] == (if |d| >= 2 then d[1] else t[0]);
    assert |d| == 1 ==> d == [d[0]];
    DigitPrefixOfConcat(d, t, 10);
    assert s[..|d|] == d;
  }

  /** Reading digits stops where the digits stop. */
  lemma ParseDigitsOfConcat(h: string, t: string, radix: nat)
    requires |h| > 0 && forall i :: 0 <= i < |h| ==> IsRadixDigit(h[i], radix)
    requires t == [] || !IsRadixDigit(t[0], radix)
    ensures ParseDigits(h + t, radix) == Int(DigitsValue(h, radix))
  {
    DigitPrefixOfConcat(h, t, radix);
    assert (h + t)[..|h|] == h;
  }

  lemma HexPrefix(x: char, z: string)
    requires x == 'x' || x == 'X'
    ensures ParseMagnitude(['0', x] + z) == ParseDigits(z, 16)
  {
    assert (['0', x] + z)[2..] == z;
  }

  /** The magnitude after a "0x" or "0X" prefix is read in radix 16, up to
      the first character that is not a hexadecimal digit. */
  lemma MagnitudeOfHex(x: char, h: string, t: string)
    requires x == 'x' || x == 'X'
    requires |h| > 0 && forall i :: 0 <= i < |h| ==> IsRadixDigit(h[i], 16)
    requires t == [] || !IsRadixDigit(t[0], 16)
    ensures ParseMagnitude(['0', x] + (h + t)) == Int(DigitsValue(h, 16))
  {
    HexPrefix(x, h + t);
    ParseDigitsOfConcat(h, t, 16);
  }

  /** Leading white space and a sign around a magnitude that starts with a
      digit: "-" negates it, "+" and no sign keep it. */
  lemma ParseIntOfSigned(ws: string, sign: string, m: string)
    requires forall i :: 0 <= i < |ws| ==> IsStrWhiteSpace(ws[i])
    requires sign == "" || sign == "+" || sign == "-"
    requires |m| > 0 && IsRadixDigit(m[0], 10)
    ensures ParseInt(ws + sign + m) == if sign == "-" then Negate(ParseMagnitude(m)) else ParseMagnitude(m)
  {
    var s := sign + m;
    assert ws + sign + m == ws + s;
    ParseIntSkipsWhiteSpace(ws, s);
    assert s[0] == (if sign == "" then m[0] else sign[0]);
    assert TrimStart(s) == s;
    if sign != "" {
      assert s[1..] == m;
    } else {
      assert s == m;
    }
  }

  /** A decimal numeral after optional white space and an optional sign,
      followed by anything that is not a digit ("-7abc" reads as -7, "+5"
      as 5, "-12xyz" as -12); only the numeral "0" followed by x or X is a
      hexadecimal prefix instead. */
  lemma ParseIntSignedNumeral(ws: string, sign: string, d: string, t: string)
    requires forall i :: 0 <= i < |ws| ==> IsStrWhiteSpace(ws[i])
    requires sign == "" || sign == "+" || sign == "-"
    requires |d| > 0 && forall i :: 0 <= i < |d| ==> IsRadixDigit(d[i], 10)
    requires t == [] || (!IsRadixDigit(t[0], 10) && (d != "0" || (t[0] != 'x' && t[0] != 'X')))
    ensures var v: int := DigitsValue(d, 10);
      ParseInt(ws + sign + d + t) == Int(if sign == "-" then -v else v)
  {
    assert (d + t)[0] == d[0];
    ParseIntOfSigned(ws, sign, d + t);
    MagnitudeOfNumeral(d, t);
    assert ws + sign + d + t == ws + sign + (d + t);
  }

  /** With no radix, a "0x" or "0X" prefix after the optional white space
      and sign switches to radix 16 ("0x1A" reads as 26, "-0X10" as -16). */
  lemma ParseIntHexNumeral(ws: string, sign: string, x: char, h: string, t: string)
    requires forall i :: 0 <= i < |ws| ==> IsStrWhiteSpace(ws[i])
    requires sign == "" || sign == "+" || sign == "-"
    requires x == 'x' || x == 'X'
    requires |h| > 0 && forall i :: 0 <= i < |h| ==> IsRadixDigit(h[i], 16)
    requires t == [] || !IsRadixDigit(t[0], 16)
    ensures var v: int := DigitsValue(h, 16);
      ParseInt(ws + sign + ['0', x] + h + t) == Int(if sign == "-" then -v else v)
  {
    var m := ['0', x] + (h + t);
    assert m[0] == '0';
    ParseIntOfSigned(ws, sign, m);
    MagnitudeOfHex(x, h, t);
    assert ws + sign + ['0', x] + h + t == ws + sign + m;
  }

  /** The episode text "0x1A" is read as 26. */
  lemma HexEpisodeText()
    ensures ParseInt("0x1A") == Int(26)
  {
    ParseIntHexNumeral("", "", 'x', "1A", "");
    assert "" + "" + ['0', 'x'] + "1A" + "" == "0x1A";
    assert "1A"[..1] == "1";
  }

  /** `parseInt` stops at the first character that is not a digit, so a
      decimal numeral followed by other text reads as the numeral alone
      ("7abc" reads as 7, "10x" as 10). */
  lemma ParseIntStopsAtNonDigit(d: string, t: string)
    requires |d| > 0 && forall i :: 0 <= i < |d| ==> IsRadixDigit(d[i], 10)
    requires t == [] || (!IsRadixDigit(t[0], 10) && (d != "0" || (t[0] != 'x' && t[0] != 'X')))
    ensures ParseInt(d + t) == Int(DigitsValue(d, 10))
  {
    var s := d + t;
    assert s[0] == d[0];
    assert TrimStart(s) == s;
    MagnitudeOfNumeral(d, t);
  }

  /** What TrimStart leaves is a suffix of its input, and everything it
      drops is white space. */
  lemma {:induction false} TrimStartIsSuffix(s: string)
    ensures |TrimStart(s)| <= |s| && TrimStart(s) == s[|s| - |TrimStart(s)|..]
    ensures forall i :: 0 <= i < |s| - |TrimStart(s)| ==> IsStrWhiteSpace(s[i])
  {
    if |s| > 0 && IsStrWhiteSpace(s[0]) {
      TrimStartIsSuffix(s[1..]);
      var r := TrimStart(s);
      assert r == TrimStart(s[1..]);
      assert s[1..][|s| - 1 - |r|..] == s[|s| - |r|..];
      forall i | 0 <= i < |s| - |r|
        ensures IsStrWhiteSpace(s[i])
      {
        if i > 0 {
          assert s[i] == s[1..][i - 1];
        }
      }
    }
  }

  /** Text without a single decimal digit ("abc", "-", "+", "x", "") reads
      as NaN: no sign or prefix can be followed by a digit, and the "0x"
      prefix itself needs the digit 0. */
  lemma NoDigitsIsNaN(s: string)
    requires forall i :: 0 <= i < |s| ==> !IsRadixDigit(s[i], 10)
    ensures ParseInt(s) == NaN
  {
    var t := TrimStart(s);
    TrimStartIsSuffix(s);
    assert forall i :: 0 <= i < |t| ==> t[i] == s[|s| - |t| + i];
    if |t| > 0 && (t[0] == '-' || t[0] == '+') {
      if |t| > 1 {
        assert t[1..][0] == t[1];
      }
      NoDigitsMagnitude(t[1..]);
    } else {
      NoDigitsMagnitude(t);
    }
  }

  /** NaN whenever no digit follows the optional white space and sign, even
      when digits come later ("x7", "a5", "- 5", "+-3"). */
  lemma ParseIntNaNWithoutLeadingDigit(ws: string, sign: string, m: string)
    requires forall i :: 0 <= i < |ws| ==> IsStrWhiteSpace(ws[i])
    requires sign == "" || sign == "+" || sign == "-"
    requires m == [] || !IsRadixDigit(m[0], 10)
    requires sign == "" && m != [] ==> !IsStrWhiteSpace(m[0]) && m[0] != '+' && m[0] != '-'
    ensures ParseInt(ws + sign + m) == NaN
  {
    var s := sign + m;
    assert ws + sign + m == ws + s;
    ParseIntSkipsWhiteSpace(ws, s);
    if sign != "" {
      assert s[0] == sign[0] && s[1..] == m;
    } else {
      assert s == m;
    }
    assert TrimStart(s) == s;
    NoDigitsMagnitude(m);
  }

  /** A "0x" or "0X" prefix with no hexadecimal digit after it reads as NaN
      ("0x", "0xg", "-0X"). */
  lemma ParseIntHexWithoutDigits(ws: string, sign: string, x: char, t: string)
    requires forall i :: 0 <= i < |ws| ==> IsStrWhiteSpace(ws[i])
    requires sign == "" || sign == "+" || sign == "-"
    requires x == 'x' || x == 'X'
    requires t == [] || !IsRadixDigit(t[0], 16)
    ensures ParseInt(ws + sign + (['0', x] + t)) == NaN
  {
    var m := ['0', x] + t;
    assert m[0] == '0';
    ParseIntOfSigned(ws, sign, m);
    HexPrefix(x, t);
  }

  /** "x7" reads as NaN and "10x" as 10. */
  lemma ParseIntExamples()
    ensures ParseInt("x7") == NaN
    ensures ParseInt("10x") == Int(10)
  {
    ParseIntNaNWithoutLeadingDigit("", "", "x7");
    assert "" + "" + "x7" == "x7";
    ParseIntStopsAtNonDigit("10", "x");
    assert "10" + "x" == "10x";
    assert "10"[..1] == "1";
  }

  lemma NoDigitsMagnitude(s: string)
    requires s == [] || !IsRadixDigit(s[0], 10)
    ensures ParseMagnitude(s) == NaN
  {
  }

  /** Text made only of white space, or empty, reads as NaN (NoDigitsIsNaN
      covers every text without a digit). */
  lemma ParseIntNaNWithoutDigits(ws: string)
    requires forall i :: 0 <= i < |ws| ==> IsStrWhiteSpace(ws[i])
    ensures ParseInt(ws) == NaN
  {
    NoDigitsIsNaN(ws);
  }
}
