/** The small part of Python's text handling the calculator relies on:
    `int(text)`, `str(n)`, `format(n, "02d")`, `text.replace("GPIO", "")`,
    `ord(text)` and `chr(n)`. */
module Text {
  import opened Wrappers

  predicate IsDigit(c: char) {
    '0' <= c <= '9'
  }

  predicate AllDigits(s: string) {
    forall k :: 0 <= k < |s| ==> IsDigit(s[k])
  }

  /** A character that `str(n)` can produce for an integer n. */
  predicate IsNumeralChar(c: char) {
    IsDigit(c) || c == '-'
  }

  predicate IsNumeral(s: string) {
    forall k :: 0 <= k < |s| ==> IsNumeralChar(s[k])
  }

  function DigitValue(c: char): nat
    requires IsDigit(c)
  {
    c as int - '0' as int
  }

  function DigitChar(d: nat): (c: char)
    requires d < 10
    ensures IsDigit(c) && DigitValue(c) == d
  {
    ('0' as int + d) as char
  }

  /** The value of a string of decimal digits, most significant digit first. */
  function DigitsValue(s: string): nat
    requires AllDigits(s)
    decreases |s|
  {
    if s == [] then 0 else DigitsValue(s[..|s| - 1]) * 10 + DigitValue(s[|s| - 1])
  }

  /** `str(n)` for a non-negative n: the shortest decimal numeral of n. */
  function NatToString(n: nat): (r: string)
    ensures |r| > 0 && AllDigits(r)
    ensures DigitsValue(r) == n
    ensures r[0] == '0' ==> r == "0"
    ensures n < 10 ==> |r| == 1
    ensures 10 <= n < 100 ==> |r| == 2
    decreases n
  {
    if n < 10 then [DigitChar(n)]
    else
      var prefix := NatToString(n / 10);
      var r := prefix + [DigitChar(n % 10)];
      assert r[..|r| - 1] == prefix;
      r
  }

  /** `str(n)` for any integer n, a minus sign in front of a negative one. */
  function IntToString(n: int): (r: string)
    ensures |r| > 0 && IsNumeral(r)
    ensures r[0] == '-' <==> n < 0
    ensures n >= 0 ==> r == NatToString(n)
    ensures n < 0 ==> r == "-" + NatToString(-n)
  {
    if n >= 0 then NatToString(n) else "-" + NatToString(-n)
  }

  /** An optional sign followed by at least one decimal digit. */
  predicate IsIntegerText(s: string) {
    if |s| > 0 && (s[0] == '-' || s[0] == '+') then |s| > 1 && AllDigits(s[1..])
    else |s| > 0 && AllDigits(s)
  }

  /** `int(text)`: an optional sign followed by at least one decimal digit;
      anything else raises, which is `None` here. */
  function ParseInt(s: string): (r: Option<int>)
    ensures r.Some? <==> IsIntegerText(s)
    ensures s == [] ==> r == None
    ensures (exists k :: 1 <= k < |s| && !IsDigit(s[k])) ==> r == None
    ensures |s| > 0 && AllDigits(s) ==> r == Some(DigitsValue(s))
    ensures |s| > 1 && s[0] == '+' && AllDigits(s[1..]) ==> r == Some(DigitsValue(s[1..]))
    ensures |s| > 1 && s[0] == '-' && AllDigits(s[1..]) ==> r.Some? && r.value == 0 - DigitsValue(s[1..]) as int
  {
    if |s| > 0 && (s[0] == '-' || s[0] == '+') then
      if |s| > 1 && AllDigits(s[1..]) then
        var v: int := DigitsValue(s[1..]);
        Some(if s[0] == '-' then -v else v)
      else None
    else if |s| > 0 && AllDigits(s) then Some(DigitsValue(s))
    else None
  }

  /** `int(str(n)) == n`. */
  lemma ParseIntToString(n: int)
    ensures ParseInt(IntToString(n)) == Some(n)
  {
    if n < 0 {
      var digits := NatToString(-n);
      assert ("-" + digits)[1..] == digits;
    }
  }

  /** Leading zeros and a plus sign are accepted, as Python's `int()` does. */
  lemma ParseIntExamples()
    ensures ParseInt("007") == Some(7)
    ensures ParseInt("+5") == Some(5)
    ensures ParseInt("-12") == Some(-12)
    ensures ParseInt("-") == None && ParseInt("5a") == None && ParseInt("") == None
  {
    assert DigitsValue("00") == 0;
    assert DigitsValue("1") == 1;
    assert "007"[..2] == "00" && "12"[..1] == "1";
    assert "+5"[1..] == "5" && "-12"[1..] == "12";
  }

  /** Two integers with the same decimal numeral are equal. */
  lemma IntToStringInjective(m: int, n: int)
    requires IntToString(m) == IntToString(n)
    ensures m == n
  {
    ParseIntToString(m);
    ParseIntToString(n);
  }

  /** The length of the longest prefix of s made of numeral characters. */
  function NumeralPrefixLength(s: string): (len: nat)
    ensures len <= |s|
  {
    if s == [] || !IsNumeralChar(s[0]) then 0 else 1 + NumeralPrefixLength(s[1..])
  }

  /** A numeral followed by a non-numeral character: the numeral is exactly
      the numeral prefix of the whole text. */
  lemma {:induction false} NumeralPrefixOf(a: string, b: string)
    requires IsNumeral(a)
    requires |b| > 0 && !IsNumeralChar(b[0])
    ensures NumeralPrefixLength(a + b) == |a|
    decreases |a|
  {
    if a == [] {
      assert a + b == b;
    } else {
      assert (a + b)[1..] == a[1..] + b;
      NumeralPrefixOf(a[1..], b);
    }
  }

  /** A numeral followed by a non-numeral character splits in only one way:
      the text after a printed integer tells where the integer ends. */
  lemma NumeralSplit(a: string, b: string, a': string, b': string)
    requires IsNumeral(a) && IsNumeral(a')
    requires |b| > 0 && !IsNumeralChar(b[0])
    requires |b'| > 0 && !IsNumeralChar(b'[0])
    requires a + b == a' + b'
    ensures a == a' && b == b'
  {
    NumeralPrefixOf(a, b);
    NumeralPrefixOf(a', b');
    assert a == (a + b)[..|a|] && a' == (a' + b')[..|a|];
    assert b == (a + b)[|a|..] && b' == (a' + b')[|a|..];
  }

  /** A leading zero does not change the value of a digit string. */
  lemma {:induction false} LeadingZero(s: string)
    requires AllDigits(s)
    ensures AllDigits("0" + s) && DigitsValue("0" + s) == DigitsValue(s)
    decreases |s|
  {
    if s != [] {
      var t := "0" + s;
      assert t[..|t| - 1] == "0" + s[..|s| - 1];
      LeadingZero(s[..|s| - 1]);
    }
  }

  /** `format(n, "02d")`: n in decimal, zero-padded on the left to width 2
      (a negative n already has width 2 with its sign). */
  function ZeroPad2(n: int): (r: string)
    ensures |r| >= 2 && IsNumeral(r)
    ensures 0 <= n < 100 ==> |r| == 2 && AllDigits(r)
    ensures ParseInt(r) == Some(n)
  {
    ParseIntToString(n);
    if 0 <= n < 10 then
      LeadingZero(NatToString(n));
      "0" + NatToString(n)
    else IntToString(n)
  }

  /** `s.replace("GPIO", "")`: every occurrence of "GPIO", scanning left to
      right without overlap, is deleted. */
  function RemoveGpio(s: string): (r: string)
    ensures |r| <= |s|
    ensures 'G' !in s ==> r == s
    decreases |s|
  {
    if |s| >= 4 && s[..4] == "GPIO" then RemoveGpio(s[4..])
    else if s == [] then []
    else [s[0]] + RemoveGpio(s[1..])
  }

  /** A leading "GPIO" is deleted and the rest is treated as on its own. */
  lemma RemoveGpioPrefix(s: string)
    ensures RemoveGpio("GPIO" + s) == RemoveGpio(s)
  {
    assert ("GPIO" + s)[..4] == "GPIO";
    assert ("GPIO" + s)[4..] == s;
  }

  /** `ord(s)`: the code point of a string of exactly one character. */
  function Ord(s: string): (r: Option<int>)
    ensures r.Some? <==> |s| == 1
    ensures r.Some? ==> 0 <= r.value < 0x11_0000
  {
    if |s| == 1 then Some(s[0] as int) else None
  }

  /** A code point that Dafny's `char` can hold. */
  predicate IsScalar(cp: int) {
    0 <= cp < 0xD800 || 0xE000 <= cp < 0x11_0000
  }

  /** `chr(cp)`: the one-character string with code point cp. */
  function Chr(cp: int): (r: Option<char>)
    ensures r.Some? <==> IsScalar(cp)
    ensures r.Some? ==> r.value as int == cp
  {
    if IsScalar(cp) then Some(cp as char) else None
  }

  /** `ord` and `chr` are inverse to each other. */
  lemma OrdChr(c: char, cp: int)
    ensures Ord([c]) == Some(c as int)
    ensures Chr(c as int) == Some(c)
    ensures Chr(cp).Some? ==> Ord([Chr(cp).value]) == Some(cp)
  {
  }
}
