/**
 * Request-parameter parsers and the "thousands" number formatter of
 * src/utils.py: parse_integer, parse_boolean, parse_hex_color and
 * k_formatter.
 */
module Utils {
  import opened Wrappers

  // ---------------------------------------------------------------------
  // Decimal digits
  // ---------------------------------------------------------------------

  predicate IsDigit(c: char) { '0' <= c <= '9' }

  predicate AllDigits(s: string) {
    forall i :: 0 <= i < |s| ==> IsDigit(s[i])
  }

  predicate HasDigit(s: string) {
    exists i :: 0 <= i < |s| && IsDigit(s[i])
  }

  function DigitValue(c: char): (d: nat)
    requires IsDigit(c)
    ensures d < 10
  {
    c as int - '0' as int
  }

  function DigitChar(d: nat): (c: char)
    requires d < 10
    ensures IsDigit(c) && DigitValue(c) == d
  {
    ('0' as int + d) as char
  }

  /** The number a string of decimal digits denotes, most significant first. */
  function DigitsValue(s: string): (n: nat)
    requires AllDigits(s)
    ensures s == [] ==> n == 0
  {
    if s == [] then 0 else DigitsValue(s[..|s| - 1]) * 10 + DigitValue(s[|s| - 1])
  }

  /** Python's str(n) for a natural number: shortest decimal spelling. */
  function NatToString(n: nat): (s: string)
    ensures |s| > 0 && AllDigits(s)
    ensures DigitsValue(s) == n
    ensures s[0] == '0' <==> n == 0
    ensures n == 0 ==> s == "0"
  {
    if n < 10 then [DigitChar(n)]
    else
      var front := NatToString(n / 10);
      var s := front + [DigitChar(n % 10)];
      assert s[..|s| - 1] == front;
      s
  }

  /** Python's str(i) for an integer: a '-' in front of negative numbers. */
  function IntToString(i: int): (s: string)
    ensures |s| > 0
    ensures s[0] == '-' <==> i < 0
    ensures i >= 0 ==> s == NatToString(i)
    ensures i < 0 ==> s == "-" + NatToString(-i)
  {
    if i < 0 then "-" + NatToString(-i) else NatToString(i)
  }

  // ---------------------------------------------------------------------
  // parse_integer
  // ---------------------------------------------------------------------

  /**
   * int(value), with ValueError turned into None.  Accepted: an optional
   * '+' or '-' followed by one or more ASCII digits.
   */
  function ParseInteger(s: string): (r: Option<int>)
    ensures r.Some? ==> |s| > 0 && HasDigit(s)
    ensures !HasDigit(s) ==> r == None
    ensures r.Some? && r.value < 0 ==> s[0] == '-'
    ensures r.Some? && s[0] != '-' && s[0] != '+' ==> AllDigits(s) && r.value == DigitsValue(s)
    ensures r.Some? <==> (|s| > 0 && AllDigits(s)) || (|s| > 1 && (s[0] == '-' || s[0] == '+') && AllDigits(s[1..]))
    ensures r.Some? && (s[0] == '-' || s[0] == '+') ==>
              r.value == (if s[0] == '-' then -(DigitsValue(s[1..]) as int) else DigitsValue(s[1..]) as int)
  {
    if |s| > 0 && (s[0] == '-' || s[0] == '+') then
      var digits := s[1..];
      if |digits| > 0 && AllDigits(digits) then
        assert IsDigit(s[1]);
        var v: int := DigitsValue(digits);
        Some(if s[0] == '-' then -v else v)
      else None
    else if |s| > 0 && AllDigits(s) then
      assert IsDigit(s[0]);
      Some(DigitsValue(s))
    else None
  }

  /** parse_integer(str(n)) == n for every integer n. */
  lemma ParseIntegerRoundTrip(n: int)
    ensures ParseInteger(IntToString(n)) == Some(n)
  {
    if n < 0 {
      var s := IntToString(n);
      assert s[1..] == NatToString(-n);
    }
  }

  /** Distinct integers have distinct decimal spellings. */
  lemma IntToStringInjective(a: int, b: int)
    ensures IntToString(a) == IntToString(b) ==> a == b
  {
    ParseIntegerRoundTrip(a);
    ParseIntegerRoundTrip(b);
  }

  /** Leading zeros do not change the number that is read. */
  lemma {:induction false} ParseIntegerLeadingZero(s: string)
    requires |s| > 0 && AllDigits(s)
    ensures ParseInteger("0" + s) == ParseInteger(s)
  {
    DigitsValueLeadingZero(s);
  }

  lemma {:induction false} DigitsValueLeadingZero(s: string)
    requires AllDigits(s)
    ensures AllDigits("0" + s) && DigitsValue("0" + s) == DigitsValue(s)
  {
    var z := "0" + s;
    assert AllDigits(z) by {
      forall i | 0 <= i < |z| ensures IsDigit(z[i]) {
        if i > 0 { assert z[i] == s[i - 1]; }
      }
    }
    if s != [] {
      assert z[..|z| - 1] == "0" + s[..|s| - 1];
      DigitsValueLeadingZero(s[..|s| - 1]);
    }
  }

  // ---------------------------------------------------------------------
  // parse_boolean
  // ---------------------------------------------------------------------

  /** str.lower() on one character, restricted to ASCII letters. */
  function LowerChar(c: char): (l: char)
    ensures 'A' <= c <= 'Z' ==> l as int == c as int + 32
    ensures !('A' <= c <= 'Z') ==> l == c
  {
    if 'A' <= c <= 'Z' then (c as int + 32) as char else c
  }

  function Lower(s: string): (l: string)
    ensures |l| == |s|
    ensures forall i :: 0 <= i < |s| ==> l[i] == LowerChar(s[i])
  {
    if s == [] then [] else [LowerChar(s[0])] + Lower(s[1..])
  }

  /** Character-wise comparison after lowering both sides. */
  predicate EqualsIgnoreCase(a: string, b: string) {
    |a| == |b| && forall i :: 0 <= i < |a| ==> LowerChar(a[i]) == LowerChar(b[i])
  }

  const TrueWords: seq<string> := ["true", "t", "1"]
  const FalseWords: seq<string> := ["false", "f", "0"]

  predicate IsLowerWord(w: string) {
    forall i :: 0 <= i < |w| ==> LowerChar(w[i]) == w[i]
  }

  /** For a word already in lower case, lowering s gives w exactly when s equals w ignoring case. */
  lemma LowerMatchesWord(s: string, w: string)
    requires IsLowerWord(w)
    ensures Lower(s) == w <==> EqualsIgnoreCase(s, w)
  {
    if EqualsIgnoreCase(s, w) {
      assert Lower(s) == w by {
        forall i | 0 <= i < |s| ensures Lower(s)[i] == w[i] {
          assert LowerChar(s[i]) == LowerChar(w[i]);
        }
      }
    }
    if Lower(s) == w {
      forall i | 0 <= i < |s| ensures LowerChar(s[i]) == LowerChar(w[i]) {
        assert Lower(s)[i] == LowerChar(s[i]);
      }
    }
  }

  /**
   * parse_boolean: true for "true", "t", "1" and false for "false", "f",
   * "0", in any letter case; None for anything else.
   */
  function ParseBoolean(s: string): (r: Option<bool>)
    ensures r == Some(true) <==> exists w :: w in TrueWords && EqualsIgnoreCase(s, w)
    ensures r == Some(false) <==> exists w :: w in FalseWords && EqualsIgnoreCase(s, w)
    ensures r == None <==> forall w :: w in TrueWords + FalseWords ==> !EqualsIgnoreCase(s, w)
  {
    forall w | w in TrueWords + FalseWords ensures Lower(s) == w <==> EqualsIgnoreCase(s, w) {
      LowerMatchesWord(s, w);
    }
    var v := Lower(s);
    if v in TrueWords then Some(true)
    else if v in FalseWords then Some(false)
    else None
  }

  /** No spelling reads as both true and false. */
  lemma BooleanWordsDisjoint(s: string)
    ensures !((exists w :: w in TrueWords && EqualsIgnoreCase(s, w)) &&
              (exists w :: w in FalseWords && EqualsIgnoreCase(s, w)))
  {
    var r := ParseBoolean(s);
  }

  /** Strings that agree ignoring case parse to the same value. */
  lemma ParseBooleanIgnoresCase(s: string, t: string)
    requires EqualsIgnoreCase(s, t)
    ensures ParseBoolean(s) == ParseBoolean(t)
  {
    forall w | w in TrueWords + FalseWords ensures EqualsIgnoreCase(s, w) <==> EqualsIgnoreCase(t, w) {
      assert |s| == |t|;
    }
  }

  // ---------------------------------------------------------------------
  // parse_hex_color
  // ---------------------------------------------------------------------

  predicate IsHexDigit(c: char) {
    '0' <= c <= '9' || 'a' <= c <= 'f' || 'A' <= c <= 'F'
  }

  predicate AllHex(s: string) {
    forall i :: 0 <= i < |s| ==> IsHexDigit(s[i])
  }

  /** One of the four alternatives of the pattern: 8, 6, 3 or 4 hex digits. */
  predicate IsColorCode(s: string) {
    (|s| == 8 || |s| == 6 || |s| == 3 || |s| == 4) && AllHex(s)
  }

  /** Length of the longest prefix of s made of hex digits. */
  function HexPrefixLength(s: string): (n: nat)
    ensures n <= |s|
    ensures AllHex(s[..n])
    ensures n < |s| ==> !IsHexDigit(s[n])
  {
    if s == [] || !IsHexDigit(s[0]) then 0
    else
      var m := HexPrefixLength(s[1..]);
      assert s[..m + 1] == [s[0]] + s[1..][..m];
      m + 1
  }

  /** The pattern matches s exactly when its hex prefix is one whole alternative followed by "" or "\n". */
  lemma HexPatternMatch(s: string)
    ensures var n := HexPrefixLength(s);
      ((n == 8 || n == 6 || n == 3 || n == 4) && (s[n..] == "" || s[n..] == "\n")) <==>
      (IsColorCode(s) || (|s| > 0 && s[|s| - 1] == '\n' && IsColorCode(s[..|s| - 1])))
  {
    var n := HexPrefixLength(s);
    if IsColorCode(s) {
      assert s[..|s|] == s;
      HexPrefixLengthIs(s, |s|);
    }
    if |s| > 0 && s[|s| - 1] == '\n' && IsColorCode(s[..|s| - 1]) {
      HexPrefixLengthIs(s, |s| - 1);
      assert s[n..] == "\n";
    }
    if s[n..] == "" { assert s == s[..n]; }
    if s[n..] == "\n" { assert s[..|s| - 1] == s[..n]; }
  }

  /** A hex run of length k that ends at the end of s or at a non-hex character is the whole hex prefix. */
  lemma {:induction false} HexPrefixLengthIs(s: string, k: nat)
    requires k <= |s| && AllHex(s[..k])
    requires k < |s| ==> !IsHexDigit(s[k])
    ensures HexPrefixLength(s) == k
  {
    if k > 0 {
      assert IsHexDigit(s[..k][0]);
      assert s[1..][..k - 1] == s[..k][1..];
      HexPrefixLengthIs(s[1..], k - 1);
    }
  }

  /**
   * re.search("^(H{8}|H{6}|H{3}|H{4})$", value): the alternative must be
   * followed by the end of the string or by one final newline, which
   * Python's "$" also matches.  On a match the result is "#" + value.
   */
  function ParseHexColor(s: string): (r: Option<string>)
    ensures r.Some? <==> IsColorCode(s) || (|s| > 0 && s[|s| - 1] == '\n' && IsColorCode(s[..|s| - 1]))
    ensures r.Some? ==> r.value == "#" + s
  {
    HexPatternMatch(s);
    var n := HexPrefixLength(s);
    var rest := s[n..];
    if (n == 8 || n == 6 || n == 3 || n == 4) && (rest == "" || rest == "\n") then Some("#" + s) else None
  }

  /** Without a trailing newline, only 3, 4, 6 or 8 characters can be accepted. */
  lemma HexColorLengths(s: string)
    requires ParseHexColor(s).Some?
    requires |s| == 0 || s[|s| - 1] != '\n'
    ensures |s| in {3, 4, 6, 8}
  {
  }

  // ---------------------------------------------------------------------
  // k_formatter
  // ---------------------------------------------------------------------

  /**
   * round(value / 1000, 1) as a count of tenths: value / 100 rounded to
   * the nearest integer, ties to even.
   */
  function RoundTenths(value: nat): (t: nat)
    ensures -50 <= value - 100 * t <= 50
    ensures value - 100 * t == 50 ==> t % 2 == 0
    ensures value - 100 * t == -50 ==> t % 2 == 0
  {
    var q := value / 100;
    var rem := value % 100;
    if rem < 50 then q
    else if rem > 50 then q + 1
    else if q % 2 == 0 then q else q + 1
  }

  /** str() of a float with one decimal: whole part, '.', one digit. */
  function Decimal1(t: nat): (r: string)
    ensures |r| >= 3
    ensures r[..|r| - 2] == NatToString(t / 10)
    ensures ParseInteger(r[..|r| - 2]) == Some(t / 10)
    ensures r[|r| - 2] == '.'
    ensures IsDigit(r[|r| - 1]) && DigitValue(r[|r| - 1]) == t % 10
  {
    var whole := NatToString(t / 10);
    var r := whole + "." + [DigitChar(t % 10)];
    assert r[..|r| - 2] == whole;
    r
  }

  /** k_formatter with the thousands suffix as a parameter. */
  function KFormatterWith(value: int, suffix: string): (r: string)
    ensures value <= 999 ==> r == IntToString(value)
    ensures value <= 999 ==> ParseInteger(r) == Some(value)
    ensures value > 999 ==> |r| >= |suffix| + 3 && r[|r| - |suffix|..] == suffix
    ensures value > 999 ==> r[..|r| - |suffix|] == Decimal1(RoundTenths(value))
  {
    if value > 999 then
      var r := Decimal1(RoundTenths(value)) + suffix;
      assert r[|r| - |suffix|..] == suffix;
      r
    else
      ParseIntegerRoundTrip(value);
      IntToString(value)
  }

  /** The suffix the source writes: U+0E30 THAI CHARACTER SARA A, U+0E1A THAI CHARACTER BO BAIMAI. */
  const WrittenSuffix: string := "\U{0E30}\U{0E1A}"

  /** The Cyrillic letter "к", short for "тысяч" (thousands). */
  const IntendedSuffix: string := "\U{043A}"

  /** k_formatter as written. */
  function KFormatter(value: int): (r: string)
    ensures value <= 999 ==> r == IntToString(value)
    ensures value > 999 ==> |r| >= 5 && r[|r| - 2..] == WrittenSuffix
  {
    KFormatterWith(value, WrittenSuffix)
  }

  /** k_formatter with the suffix the author evidently meant. */
  function KFormatterIntended(value: int): (r: string)
    ensures value <= 999 ==> r == IntToString(value)
    ensures value > 999 ==> |r| >= 4 && r[|r| - 1] == 'к'
  {
    KFormatterWith(value, IntendedSuffix)
  }

  // UTF-8 encoding of a two-byte code point and Windows-874 (TIS-620)
  // decoding of its Thai range, enough to show where the suffix comes from.

  function Utf8TwoBytes(c: char): (b: seq<nat>)
    requires 0x80 <= c as int < 0x800
    ensures |b| == 2 && 0xC0 <= b[0] < 0xE0 && 0x80 <= b[1] < 0xC0
    ensures (b[0] - 0xC0) * 64 + (b[1] - 0x80) == c as int
  {
    [0xC0 + c as int / 64, 0x80 + c as int % 64]
  }

  /** Bytes of the Thai block; 0xDB-0xDE are unassigned in Windows-874. */
  predicate IsThaiByte(x: nat) {
    0xA1 <= x <= 0xDA || 0xDF <= x <= 0xFB
  }

  function Windows874Decode(b: seq<nat>): (s: string)
    requires forall i :: 0 <= i < |b| ==> IsThaiByte(b[i])
    ensures |s| == |b|
    ensures forall i :: 0 <= i < |b| ==> s[i] as int == b[i] + 0x0E01 - 0xA1
  {
    if b == [] then []
    else
      assert IsThaiByte(b[0]);
      [(b[0] + 0x0E01 - 0xA1) as char] + Windows874Decode(b[1..])
  }

  /** The written suffix is the UTF-8 bytes of "к" read as Windows-874. */
  lemma SuffixIsMisdecodedKa()
    ensures Utf8TwoBytes('к') == [0xD0, 0xBA]
    ensures Windows874Decode(Utf8TwoBytes('к')) == WrittenSuffix
    ensures WrittenSuffix != IntendedSuffix
  {
    var s := Windows874Decode([0xD0, 0xBA]);
    assert s[0] == '\U{0E30}' && s[1] == '\U{0E1A}';
  }

  /** A concrete input: 1500 formats with the Thai suffix instead of "к". */
  lemma KFormatterShowsThaiSuffix()
    ensures KFormatter(1500) == "1.5" + WrittenSuffix
    ensures KFormatterIntended(1500) == "1.5к"
  {
    assert RoundTenths(1500) == 15;
    assert NatToString(1) == "1";
  }
}
