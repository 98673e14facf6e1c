/** The two string operations the demo uses: formatting an `int` inside an
    interpolated string, and `string.Replace(string, string)`. */
module Text {
  import opened DotNet

  predicate IsDigit(ch: char) {
    '0' <= ch <= '9'
  }

  function DigitChar(d: nat): (ch: char)
    requires d < 10
    ensures IsDigit(ch) && ch as int - '0' as int == d
  {
    ('0' as int + d) as char
  }

  /** The decimal digits of a natural number, most significant first, with no
      leading zero. */
  function Digits(n: nat): (r: string)
    ensures 1 <= |r|
    ensures forall i :: 0 <= i < |r| ==> IsDigit(r[i])
    ensures |r| > 1 ==> r[0] != '0'
    decreases n
  {
    if n < 10 then [DigitChar(n)] else Digits(n / 10) + [DigitChar(n % 10)]
  }

  /** `n.ToString()` with the invariant culture: an optional '-' and the digits. */
  function Decimal(n: int): (r: string)
    ensures 1 <= |r|
    ensures forall i :: 0 <= i < |r| ==> IsDigit(r[i]) || r[i] == '-'
    ensures (r[0] == '-') <==> n < 0
  {
    if n < 0 then "-" + Digits(-n) else Digits(n)
  }

  function DigitValue(ch: char): (d: nat)
    requires IsDigit(ch)
    ensures d < 10 && DigitChar(d) == ch
  {
    ch as int - '0' as int
  }

  /** Reads back a string of digits, the most significant first. */
  function DigitsValue(s: string): (v: nat)
    requires forall i :: 0 <= i < |s| ==> IsDigit(s[i])
  {
    if s == [] then 0 else 10 * DigitsValue(s[..|s| - 1]) + DigitValue(s[|s| - 1])
  }

  /** Reads back an optional '-' followed by digits; the inverse of Decimal. */
  function ParseDecimal(s: string): (r: Option<int>) {
    if |s| > 0 && s[0] == '-' && |s| > 1 && forall i :: 1 <= i < |s| ==> IsDigit(s[i]) then
      Some(0 - DigitsValue(s[1..]))
    else if |s| > 0 && forall i :: 0 <= i < |s| ==> IsDigit(s[i]) then
      Some(DigitsValue(s))
    else
      None
  }

  lemma {:induction false} DigitsValueOfDigits(n: nat)
    ensures DigitsValue(Digits(n)) == n
    decreases n
  {
    var r := Digits(n);
    if n >= 10 {
      DigitsValueOfDigits(n / 10);
      assert r[..|r| - 1] == Digits(n / 10);
    }
  }

  /** Formatting an int and reading it back gives the same int, so distinct
      counter values give distinct names. */
  lemma DecimalRoundTrip(n: int)
    ensures ParseDecimal(Decimal(n)) == Some(n)
  {
    var r := Decimal(n);
    if n < 0 {
      DigitsValueOfDigits(-n);
      assert r[1..] == Digits(-n);
    } else {
      DigitsValueOfDigits(n);
    }
  }

  /** `s.Replace(pattern, replacement)`: every non-overlapping occurrence of
      `pattern`, scanning left to right with ordinal comparison, is replaced.
      .NET throws for an empty pattern; callers here pass constants. */
  function ReplaceAll(s: string, pattern: string, replacement: string): (r: string)
    requires |pattern| > 0
    decreases |s|
  {
    if |s| < |pattern| then s
    else if s[..|pattern|] == pattern then
      replacement + ReplaceAll(s[|pattern|..], pattern, replacement)
    else
      [s[0]] + ReplaceAll(s[1..], pattern, replacement)
  }

  /** A string in which the pattern's first character never occurs is returned as it is. */
  lemma {:induction false} ReplaceAllWithoutMatch(s: string, pattern: string, replacement: string)
    requires |pattern| > 0
    requires forall i :: 0 <= i < |s| ==> s[i] != pattern[0]
    ensures ReplaceAll(s, pattern, replacement) == s
    decreases |s|
  {
    if |s| >= |pattern| {
      assert s[..|pattern|][0] == s[0];
      ReplaceAllWithoutMatch(s[1..], pattern, replacement);
      assert [s[0]] + s[1..] == s;
    }
  }

  /** Replacing a pattern by itself changes nothing. */
  lemma {:induction false} ReplaceAllSelf(s: string, pattern: string)
    requires |pattern| > 0
    ensures ReplaceAll(s, pattern, pattern) == s
    decreases |s|
  {
    if |s| >= |pattern| {
      if s[..|pattern|] == pattern {
        ReplaceAllSelf(s[|pattern|..], pattern);
        assert s[..|pattern|] + s[|pattern|..] == s;
      } else {
        ReplaceAllSelf(s[1..], pattern);
        assert [s[0]] + s[1..] == s;
      }
    }
  }

  /** A leading occurrence is replaced and the scan resumes after it. */
  lemma ReplaceAllLeading(pattern: string, replacement: string, rest: string)
    requires |pattern| > 0
    ensures ReplaceAll(pattern + rest, pattern, replacement)
         == replacement + ReplaceAll(rest, pattern, replacement)
  {
  }
}
