/**
 * The few JavaScript string conversions the components rely on:
 * `parseInt(s, 10)`, the decimal rendering of an integer in a template
 * literal, and the first two fields of `s.split(':')`.
 */
module Text {
  import opened Wrappers

  predicate IsDigit(c: char) {
    '0' <= c <= '9'
  }

  predicate AllDigits(s: string) {
    forall i :: 0 <= i < |s| ==> IsDigit(s[i])
  }

  /** The characters `parseInt` skips before the number (StrWhiteSpaceChar). */
  predicate IsJsSpace(c: char) {
    c == ' ' || c == '\t' || c == '\n' || c == '\r' || c == '\U{B}' || c == '\U{C}'
    || c == '\U{A0}' || c == '\U{FEFF}' || c == '\U{1680}' || ('\U{2000}' <= c <= '\U{200A}')
    || c == '\U{2028}' || c == '\U{2029}' || c == '\U{202F}' || c == '\U{205F}' || c == '\U{3000}'
  }

  function DigitChar(d: nat): (c: char)
    requires d < 10
    ensures IsDigit(c) && c as int - '0' as int == d
  {
    ('0' as int + d) as char
  }

  /** The value of a string of decimal digits, most significant first. */
  function DigitsValue(s: string): nat
    requires AllDigits(s)
  {
    if s == [] then 0 else 10 * DigitsValue(s[..|s| - 1]) + (s[|s| - 1] as int - '0' as int)
  }

  /** Decimal rendering of a natural number, as `${n}` prints it. */
  function NatToString(n: nat): (s: string)
    ensures 1 <= |s| && AllDigits(s)
    ensures DigitsValue(s) == n
    ensures n > 0 ==> s[0] != '0'
    ensures n == 0 ==> s == "0"
  {
    if n < 10 then [DigitChar(n)]
    else
      var s := NatToString(n / 10) + [DigitChar(n % 10)];
      assert s[..|s| - 1] == NatToString(n / 10);
      s
  }

  /** Decimal rendering of an integer, with a leading `-` when negative. */
  function IntToString(n: int): (s: string)
    ensures 1 <= |s| && (s[0] == '-' || IsDigit(s[0]))
  {
    if n < 0 then "-" + NatToString(-n) else NatToString(n)
  }

  /** The longest prefix of `s` made of decimal digits. */
  function DigitPrefix(s: string): (r: string)
    ensures AllDigits(r) && r <= s
    ensures |r| < |s| ==> !IsDigit(s[|r|])
  {
    if s != [] && IsDigit(s[0]) then [s[0]] + DigitPrefix(s[1..]) else []
  }

  /** `s` without its leading white space. */
  function TrimStart(s: string): (r: string)
    ensures |r| <= |s| && r == s[|s| - |r|..]
    ensures forall i :: 0 <= i < |s| - |r| ==> IsJsSpace(s[i])
    ensures r == [] || !IsJsSpace(r[0])
  {
    if s != [] && IsJsSpace(s[0]) then
      var rest := s[1..];
      var r := TrimStart(rest);
      assert rest[|rest| - |r|..] == s[|s| - |r|..];
      assert forall i :: 1 <= i < |s| - |r| ==> s[i] == rest[i - 1];
      r
    else s
  }

  /**
   * `parseInt(s, 10)`: leading white space is skipped, one optional sign is
   * read, then the longest run of digits; `None` is `NaN` (no digit at all).
   */
  function ParseInt(s: string): Option<int> {
    ParseSigned(TrimStart(s))
  }

  /** `parseInt` once the white space is gone. */
  function ParseSigned(t: string): Option<int> {
    var negative := t != [] && t[0] == '-';
    var body := if t != [] && (t[0] == '-' || t[0] == '+') then t[1..] else t;
    var digits := DigitPrefix(body);
    if digits == [] then None
    else
      var magnitude: int := DigitsValue(digits);
      Some(if negative then -magnitude else magnitude)
  }

  lemma DigitPrefixOfDigits(s: string)
    requires AllDigits(s)
    ensures DigitPrefix(s) == s
  {
  }

  /** A leading space does not change what `parseInt` reads. */
  lemma ParseIntSkipsSpace(s: string)
    ensures ParseInt(" " + s) == ParseInt(s)
  {
    var t := " " + s;
    assert t[0] == ' ' && t[1..] == s;
    assert TrimStart(t) == TrimStart(s);
    assert ParseInt(t) == ParseSigned(TrimStart(s));
  }

  /** A run of digits reads as its decimal value. */
  lemma ParseIntOfDigits(s: string)
    requires 1 <= |s| && AllDigits(s)
    ensures ParseInt(s) == Some(DigitsValue(s))
  {
    assert IsDigit(s[0]) && !IsJsSpace(s[0]);
    assert TrimStart(s) == s;
    assert s[0] != '-' && s[0] != '+';
    DigitPrefixOfDigits(s);
    assert ParseSigned(s) == Some(DigitsValue(s));
  }

  /** Reading back what `IntToString` prints gives the same integer. */
  lemma {:induction false} ParseIntOfIntToString(n: int)
    ensures ParseInt(IntToString(n)) == Some(n)
  {
    if n < 0 {
      var s := IntToString(n);
      assert !IsJsSpace(s[0]);
      assert TrimStart(s) == s;
      assert s[1..] == NatToString(-n);
      DigitPrefixOfDigits(NatToString(-n));
      assert ParseSigned(s) == Some(n);
    } else {
      ParseIntOfDigits(NatToString(n));
    }
  }

  /**
   * `${text}` of a string field that may be `undefined`, such as
   * `split(':')[1]` of a time without `:`.
   */
  function Interpolated(text: Option<string>): string {
    if text.Some? then text.value else "undefined"
  }

  /** The part of `s` before its first `:`, i.e. `s.split(':')[0]`. */
  function FirstField(s: string): (r: string)
    ensures r <= s && ':' !in r
    ensures |r| < |s| ==> s[|r|] == ':'
  {
    if s == [] || s[0] == ':' then [] else [s[0]] + FirstField(s[1..])
  }

  /** What follows the first `:` of `s`, or `None` when `s` has no `:`. */
  function AfterFirstColon(s: string): (r: Option<string>)
    ensures r.None? <==> ':' !in s
    ensures r.Some? ==> s == FirstField(s) + ":" + r.value
  {
    if s == [] then None
    else if s[0] == ':' then Some(s[1..])
    else
      var r := AfterFirstColon(s[1..]);
      assert r.None? ==> ':' !in s[1..];
      assert ':' in s[1..] ==> ':' in s;
      r
  }

  /** `s.split(':')[1]`: the text between the first and second `:`; `None` is `undefined`. */
  function SecondField(s: string): Option<string> {
    match AfterFirstColon(s)
    case None => None
    case Some(rest) => Some(FirstField(rest))
  }

  lemma {:induction false} FirstFieldOfColonFree(s: string)
    requires ':' !in s
    ensures FirstField(s) == s
  {
    if s != [] {
      assert ':' !in s[1..];
      FirstFieldOfColonFree(s[1..]);
    }
  }

  /** Splitting `a + ":" + b` on `:` gives back `a` and `b` when neither holds a `:`. */
  lemma {:induction false} SplitJoined(a: string, b: string)
    requires ':' !in a
    ensures FirstField(a + ":" + b) == a
    ensures AfterFirstColon(a + ":" + b) == Some(b)
    ensures ':' !in b ==> SecondField(a + ":" + b) == Some(b)
  {
    var s := a + ":" + b;
    if a == [] {
      assert s[0] == ':' && s[1..] == b;
    } else {
      assert s[0] == a[0] && s[1..] == a[1..] + ":" + b;
      assert ':' !in a[1..];
      SplitJoined(a[1..], b);
    }
    if ':' !in b {
      FirstFieldOfColonFree(b);
    }
  }
}
