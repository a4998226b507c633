/** Season labels such as "2024-25": the leading-year parse applied to the
    champion rows, and the string order used to pick the latest season. */
module SeasonLabels {
  import opened Wrappers

  predicate IsDigit(c: char) {
    '0' <= c <= '9'
  }

  function DigitValue(c: char): (d: nat)
    requires IsDigit(c)
    ensures d <= 9
  {
    c as int - '0' as int
  }

  function DigitChar(d: nat): (c: char)
    requires d <= 9
    ensures IsDigit(c) && DigitValue(c) == d
  {
    ('0' as int + d) as char
  }

  predicate AllDigits(s: string) {
    forall i :: 0 <= i < |s| ==> IsDigit(s[i])
  }

  /** The first `n` characters of `s`, or all of `s` when it is shorter (Python's `s[:n]`). */
  function Take(s: string, n: nat): string {
    if |s| < n then s else s[..n]
  }

  /** The value of a run of decimal digits, most significant digit first (0 for the empty run). */
  function DigitsValue(s: string): nat
    requires AllDigits(s)
  {
    if |s| == 0 then 0 else 10 * DigitsValue(s[..|s| - 1]) + DigitValue(s[|s| - 1])
  }

  /** `int(text)`: the decimal value of `text`, or None where Python raises ValueError. */
  function ParseInt(text: string): Option<int> {
    if |text| > 0 && AllDigits(text) then Some(DigitsValue(text)) else None
  }

  /** The season-start year: `int(yearLabel[:4])`. */
  function SeasonStart(yearLabel: string): (r: Option<int>)
    ensures r.Some? ==> 0 <= r.value <= 9999
  {
    var t := Take(yearLabel, 4);
    ShortDigitsBound(t);
    ParseInt(t)
  }

  /** The four-digit decimal text of a year, with leading zeros. */
  function YearText(y: int): (s: string)
    requires 0 <= y <= 9999
    ensures |s| == 4 && AllDigits(s)
  {
    [DigitChar(y / 1000), DigitChar(y / 100 % 10), DigitChar(y / 10 % 10), DigitChar(y % 10)]
  }

  lemma DigitsValueOfFour(s: string)
    requires |s| == 4 && AllDigits(s)
    ensures DigitsValue(s) == 1000 * DigitValue(s[0]) + 100 * DigitValue(s[1])
                              + 10 * DigitValue(s[2]) + DigitValue(s[3])
  {
    var s1, s2, s3 := s[..1], s[..2], s[..3];
    assert s1[..0] == [] && s2[..1] == s1 && s3[..2] == s2 && s[..|s| - 1] == s3;
    assert DigitsValue(s1) == DigitValue(s[0]);
    assert DigitsValue(s2) == 10 * DigitValue(s[0]) + DigitValue(s[1]);
    assert DigitsValue(s3) == 100 * DigitValue(s[0]) + 10 * DigitValue(s[1]) + DigitValue(s[2]);
  }

  /** A yearLabel whose first four characters are digits starts in the year they spell. */
  lemma SeasonStartOfDigits(yearLabel: string)
    requires |yearLabel| >= 4 && AllDigits(yearLabel[..4])
    ensures SeasonStart(yearLabel) == Some(1000 * DigitValue(yearLabel[0]) + 100 * DigitValue(yearLabel[1])
                                       + 10 * DigitValue(yearLabel[2]) + DigitValue(yearLabel[3]))
  {
    DigitsValueOfFour(yearLabel[..4]);
  }

  /** The parse fails exactly when the yearLabel is empty or one of its first four characters is not a digit. */
  lemma SeasonStartFails(yearLabel: string)
    ensures SeasonStart(yearLabel).None? <==>
              |yearLabel| == 0 || exists i :: 0 <= i < 4 && i < |yearLabel| && !IsDigit(yearLabel[i])
  {
    var t := Take(yearLabel, 4);
    if |yearLabel| > 0 && !AllDigits(t) {
      var i :| 0 <= i < |t| && !IsDigit(t[i]);
      assert t[i] == yearLabel[i];
    }
  }

  /** Writing a year as four digits and parsing the yearLabel back gives that year, whatever follows it. */
  lemma SeasonStartRoundTrip(y: int, rest: string)
    requires 0 <= y <= 9999
    ensures SeasonStart(YearText(y) + rest) == Some(y)
  {
    var text := YearText(y);
    var yearLabel := text + rest;
    assert yearLabel[..4] == text;
    SeasonStartOfDigits(yearLabel);
    assert DigitValue(text[0]) == y / 1000 && DigitValue(text[1]) == y / 100 % 10;
    assert DigitValue(text[2]) == y / 10 % 10 && DigitValue(text[3]) == y % 10;
    DecimalDigits(y);
  }

  lemma DecimalDigits(y: int)
    requires 0 <= y <= 9999
    ensures 1000 * (y / 1000) + 100 * (y / 100 % 10) + 10 * (y / 10 % 10) + y % 10 == y
  {
    var a, b, c := y / 1000, y / 100, y / 10;
    assert y == 10 * c + y % 10;
    assert c == 10 * b + c % 10;
    assert b == 10 * a + b % 10;
  }

  lemma {:induction false} DigitsValueBound(s: string)
    requires AllDigits(s)
    ensures DigitsValue(s) < Pow10(|s|)
  {
    if |s| > 0 {
      DigitsValueBound(s[..|s| - 1]);
    }
  }

  function Pow10(n: nat): (p: nat)
    ensures p >= 1
  {
    if n == 0 then 1 else 10 * Pow10(n - 1)
  }

  /** A run of at most four digits has a value of at most 9999. */
  lemma ShortDigitsBound(t: string)
    requires |t| <= 4
    ensures AllDigits(t) ==> DigitsValue(t) <= 9999
  {
    if AllDigits(t) {
      DigitsValueBound(t);
      assert Pow10(|t|) <= 10000 by {
        assert Pow10(0) == 1 && Pow10(1) == 10 && Pow10(2) == 100 && Pow10(3) == 1000 && Pow10(4) == 10000;
      }
    }
  }

  /** Python's `a <= b` on strings: compare code point by code point; a proper prefix is smaller. */
  predicate LexLe(a: string, b: string) {
    |a| == 0 || (|b| > 0 && (a[0] < b[0] || (a[0] == b[0] && LexLe(a[1..], b[1..]))))
  }

  lemma {:induction false} LexLeReflexive(a: string)
    ensures LexLe(a, a)
  {
    if |a| > 0 {
      LexLeReflexive(a[1..]);
    }
  }

  lemma {:induction false} LexLeAntisymmetric(a: string, b: string)
    requires LexLe(a, b) && LexLe(b, a)
    ensures a == b
  {
    if |a| > 0 {
      LexLeAntisymmetric(a[1..], b[1..]);
      assert a == [a[0]] + a[1..] && b == [b[0]] + b[1..];
    }
  }

  lemma {:induction false} LexLeTransitive(a: string, b: string, c: string)
    requires LexLe(a, b) && LexLe(b, c)
    ensures LexLe(a, c)
  {
    if |a| > 0 && a[0] == b[0] && b[0] == c[0] {
      LexLeTransitive(a[1..], b[1..], c[1..]);
    }
  }

  lemma {:induction false} LexLeTotal(a: string, b: string)
    ensures LexLe(a, b) || LexLe(b, a)
  {
    if |a| > 0 && |b| > 0 && a[0] == b[0] {
      LexLeTotal(a[1..], b[1..]);
    }
  }

  lemma LexLeAllAbove(labels: seq<string>, mid: string, top: string)
    requires forall i :: 0 <= i < |labels| ==> LexLe(labels[i], mid)
    requires LexLe(mid, top)
    ensures forall i :: 0 <= i < |labels| ==> LexLe(labels[i], top)
  {
    forall i | 0 <= i < |labels| ensures LexLe(labels[i], top) {
      LexLeTransitive(labels[i], mid, top);
    }
  }

  /** `max` over a non-empty column of labels under Python's string order. */
  function MaxLabel(labels: seq<string>): (r: string)
    requires |labels| > 0
    ensures r in labels
    ensures forall i :: 0 <= i < |labels| ==> LexLe(labels[i], r)
  {
    if |labels| == 1 then
      LexLeReflexive(labels[0]);
      labels[0]
    else
      var rest := MaxLabel(labels[1..]);
      assert forall i :: 1 <= i < |labels| ==> labels[i] == labels[1..][i - 1];
      if LexLe(labels[0], rest) then
        rest
      else
        LexLeTotal(labels[0], rest);
        LexLeReflexive(labels[0]);
        LexLeAllAbove(labels[1..], rest, labels[0]);
        labels[0]
  }
}
