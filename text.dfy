/** Character-level helpers shared by the configuration decoders: ASCII
    digits and decimal values, the decimal rendering of a natural number,
    splitting a string at dots, and the C-locale `tolower`. */
module Text {

  predicate IsDigit(c: char) { '0' <= c <= '9' }

  /** A non-empty run of ASCII digits (what the regular expression `[0-9]+`
      matches in full). */
  predicate IsDigits(s: string)
  {
    |s| > 0 && forall i :: 0 <= i < |s| ==> IsDigit(s[i])
  }

  /** The value of a digit character (meaningful on digits only). */
  function DigitValue(c: char): int
  {
    (c as int) - ('0' as int)
  }

  /** The value of a string of digits read in base ten, leading zeros
      allowed as `stoi` accepts them (meaningful on digit strings only). */
  function DecimalValue(s: string): int
  {
    if s == [] then 0 else DecimalValue(s[..|s| - 1]) * 10 + DigitValue(s[|s| - 1])
  }

  function DigitChar(d: nat): (c: char)
    requires d < 10
    ensures IsDigit(c) && DigitValue(c) == d
  {
    ('0' as int + d) as char
  }

  /** The shortest decimal rendering of `n`, as `"%d"` would print it. */
  function Decimal(n: nat): (s: string)
    decreases n
  {
    if n < 10 then [DigitChar(n)] else Decimal(n / 10) + [DigitChar(n % 10)]
  }

  /** Reading back the decimal rendering of `n` gives `n`. */
  lemma {:induction false} DecimalRoundTrip(n: nat)
    ensures IsDigits(Decimal(n))
    ensures DecimalValue(Decimal(n)) == n
    decreases n
  {
    if n >= 10 {
      DecimalRoundTrip(n / 10);
      var s := Decimal(n);
      assert s[..|s| - 1] == Decimal(n / 10);
    }
  }

  /** Index of the first occurrence of `c` in `s`, or `|s|` when absent. */
  function FirstIndex(s: string, c: char): (i: nat)
    ensures i <= |s|
    ensures i < |s| ==> s[i] == c
    ensures forall k :: 0 <= k < i ==> s[k] != c
  {
    if s == [] then 0 else if s[0] == c then 0 else 1 + FirstIndex(s[1..], c)
  }

  /** The pieces of `s` between dots; a string without a dot is one piece. */
  function SplitDots(s: string): seq<string>
    decreases |s|
  {
    var i := FirstIndex(s, '.');
    if i == |s| then [s] else [s[..i]] + SplitDots(s[i + 1..])
  }

  lemma SplitDotsCons(p: string, rest: string)
    requires '.' !in p
    ensures SplitDots(p + "." + rest) == [p] + SplitDots(rest)
  {
    var s := p + "." + rest;
    assert FirstIndex(s, '.') == |p| by {
      assert s[|p|] == '.';
      assert forall k :: 0 <= k < |p| ==> s[k] == p[k];
    }
    assert s[..|p|] == p;
    assert s[|p| + 1..] == rest;
  }

  lemma SplitDotsSingle(p: string)
    requires '.' !in p
    ensures SplitDots(p) == [p]
  {
  }

  /** Length of the longest prefix of `s` made of digits. */
  function RunLength(s: string): (n: nat)
    ensures n <= |s|
    ensures forall i :: 0 <= i < n ==> IsDigit(s[i])
    ensures n < |s| ==> !IsDigit(s[n])
  {
    if s == [] || !IsDigit(s[0]) then 0 else 1 + RunLength(s[1..])
  }

  lemma RunLengthOfDigits(p: string, rest: string)
    requires IsDigits(p)
    requires rest == [] || !IsDigit(rest[0])
    ensures RunLength(p + rest) == |p|
  {
    var s := p + rest;
    assert forall k :: 0 <= k < |p| ==> s[k] == p[k];
    assert |p| < |s| ==> s[|p|] == rest[0];
  }

  /** `std::stoi` on a string that starts with a digit: the value of the
      leading digit run (what follows it is ignored). */
  function Stoi(s: string): int
    requires |s| > 0 && IsDigit(s[0])
  {
    DecimalValue(s[..RunLength(s)])
  }

  /** C-locale `tolower`: maps 'A'..'Z' to 'a'..'z', leaves every other
      character unchanged. */
  function LowerChar(c: char): (r: char)
    ensures 'A' <= c <= 'Z' ==> r as int == c as int + 32
    ensures !('A' <= c <= 'Z') ==> r == c
  {
    if 'A' <= c <= 'Z' then (c as int + 32) as char else c
  }

  function ToLower(s: string): (r: string)
    ensures |r| == |s|
    ensures forall i :: 0 <= i < |s| ==> r[i] == LowerChar(s[i])
  {
    seq(|s|, i requires 0 <= i < |s| => LowerChar(s[i]))
  }

  /** Lowercasing is idempotent. */
  lemma ToLowerIdempotent(s: string)
    ensures ToLower(ToLower(s)) == ToLower(s)
  {
  }
}
