// JavaScript's character classes and parseInt, as the form and file-name
// handling of the upload hooks use them: `\s` and `\d` in regular
// expressions, and parseInt with no radix.

module JsText {
  import opened Strings

  /** The white space `\s` and String.prototype.trim recognise: WhiteSpace and LineTerminator. */
  predicate IsJsSpace(c: char)
  {
    c == '\t' || c == '\n' || c == '\U{000B}' || c == '\U{000C}' || c == '\r' || c == ' ' ||
    c == '\U{00A0}' || c == '\U{1680}' || ('\U{2000}' <= c <= '\U{200A}') ||
    c == '\U{2028}' || c == '\U{2029}' || c == '\U{202F}' || c == '\U{205F}' ||
    c == '\U{3000}' || c == '\U{FEFF}'
  }

  /** The characters `.` does not match. */
  predicate IsLineTerminator(c: char)
  {
    c == '\n' || c == '\r' || c == '\U{2028}' || c == '\U{2029}'
  }

  /** What is left after dropping the longest prefix whose characters satisfy p. */
  function DropLeading(s: string, p: char -> bool): (r: string)
    ensures |r| <= |s|
  {
    if |s| > 0 && p(s[0]) then DropLeading(s[1..], p) else s
  }

  /** What is left is a suffix; everything dropped satisfies p and what is left does not start with a p-character. */
  lemma {:induction false} DropLeadingSuffix(s: string, p: char -> bool)
    ensures var r := DropLeading(s, p);
            r == s[|s| - |r|..] && (forall j :: 0 <= j < |s| - |r| ==> p(s[j])) && (|r| > 0 ==> !p(r[0]))
  {
    if |s| > 0 && p(s[0]) {
      DropLeadingSuffix(s[1..], p);
      var r := DropLeading(s[1..], p);
      assert s[1..][|s| - 1 - |r|..] == s[|s| - |r|..];
      assert forall j :: 1 <= j < |s| ==> s[j] == s[1..][j - 1];
    }
  }

  /** Dropping a prefix of p-characters in front of a string that does not start with one. */
  lemma {:induction false} DropLeadingPrefix(a: string, b: string, p: char -> bool)
    requires forall j :: 0 <= j < |a| ==> p(a[j])
    requires |b| == 0 || !p(b[0])
    ensures DropLeading(a + b, p) == b
  {
    if |a| > 0 {
      assert (a + b)[1..] == a[1..] + b;
      DropLeadingPrefix(a[1..], b, p);
    } else {
      assert a + b == b;
    }
  }

  /** The value of a digit in bases up to 36, or 36 for a character that is no digit. */
  function DigitValue(c: char): (v: nat)
    ensures v <= 36
    ensures IsDigit(c) ==> v == c as int - '0' as int
  {
    if '0' <= c <= '9' then c as int - '0' as int
    else if 'a' <= c <= 'z' then c as int - 'a' as int + 10
    else if 'A' <= c <= 'Z' then c as int - 'A' as int + 10
    else 36
  }

  /** The length of the longest prefix of digits of the radix. */
  function DigitRun(s: string, radix: nat): (k: nat)
    ensures k <= |s|
    ensures forall j :: 0 <= j < k ==> DigitValue(s[j]) < radix
    ensures k < |s| ==> DigitValue(s[k]) >= radix
  {
    if |s| > 0 && DigitValue(s[0]) < radix then
      var k := DigitRun(s[1..], radix);
      assert forall j :: 1 <= j < |s| ==> s[j] == s[1..][j - 1];
      1 + k
    else 0
  }

  /** The value the digits denote in the radix. */
  function RadixValue(s: string, radix: nat): nat
  {
    if |s| == 0 then 0 else radix * RadixValue(s[..|s| - 1], radix) + DigitValue(s[|s| - 1])
  }

  /** A number parseInt can return: NaN, or an integer. */
  datatype Number = NaN | Num(value: int)

  /**
   * parseInt(s) with no radix: leading white space is skipped, a sign is
   * read, a "0x" or "0X" prefix selects base 16, and the longest run of
   * digits that follows is read; with no digit the result is NaN.
   */
  function ParseInt(s: string): (r: Number)
  {
    ParseSigned(DropLeading(s, IsJsSpace))
  }

  /** The sign, then the digits. */
  function ParseSigned(t: string): (r: Number)
  {
    if |t| > 0 && t[0] == '-' then Negated(ParseRadix(t[1..]))
    else if |t| > 0 && t[0] == '+' then ParseRadix(t[1..])
    else ParseRadix(t)
  }

  function Negated(x: Number): (r: Number)
  {
    if x.Num? then Num(-x.value) else NaN
  }

  /** A "0x" or "0X" prefix selects base 16, otherwise base 10. */
  function ParseRadix(u: string): (r: Number)
  {
    if |u| >= 2 && u[0] == '0' && (u[1] == 'x' || u[1] == 'X') then ParseDigits(u[2..], 16)
    else ParseDigits(u, 10)
  }

  /** The longest run of digits of the radix, NaN when there is none. */
  function ParseDigits(v: string, radix: nat): (r: Number)
    ensures r.Num? ==> r.value >= 0
  {
    var k := DigitRun(v, radix);
    if k == 0 then NaN else Num(RadixValue(v[..k], radix))
  }

  /** In base 10, RadixValue is the usual value of a digit string. */
  lemma {:induction false} DecimalValue(s: string)
    requires forall i :: 0 <= i < |s| ==> '0' <= s[i] <= '9'
    ensures RadixValue(s, 10) == DigitsValue(s)
  {
    if |s| > 0 {
      DecimalValue(s[..|s| - 1]);
    }
  }

  /** parseInt of a non-empty string of decimal digits is the value of the digits. */
  lemma ParseIntOfDigits(s: string)
    requires |s| > 0 && forall i :: 0 <= i < |s| ==> '0' <= s[i] <= '9'
    ensures ParseInt(s) == Num(DigitsValue(s))
  {
    assert !IsJsSpace(s[0]);
    assert DropLeading(s, IsJsSpace) == s;
    assert ParseSigned(s) == ParseRadix(s);
    assert ParseRadix(s) == ParseDigits(s, 10);
    assert DigitRun(s, 10) == |s|;
    assert s[..|s|] == s;
    DecimalValue(s);
  }

  /** parseInt reads back what String(n) writes. */
  lemma ParseIntOfNatToString(n: nat)
    ensures ParseInt(NatToString(n)) == Num(n)
  {
    ParseIntOfDigits(NatToString(n));
    NatToStringValue(n);
  }

  /** parseInt of a string whose first character is no digit, sign or space is NaN. */
  lemma ParseIntOfNonNumeric(s: string)
    requires |s| > 0 && DigitValue(s[0]) >= 10 && !IsJsSpace(s[0]) && s[0] != '-' && s[0] != '+'
    ensures ParseInt(s) == NaN
  {
    assert DropLeading(s, IsJsSpace) == s;
  }
}
