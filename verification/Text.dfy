/** Decimal numerals and substrings. */
module Text {
  import opened Schema

  function Decimal(n: nat): (s: string)
    ensures s != ""
  {
    if n < 10 then [('0' as int + n) as char] else Decimal(n / 10) + [('0' as int + n % 10) as char]
  }

  function Pow10(k: nat): nat {
    if k == 0 then 1 else 10 * Pow10(k - 1)
  }

  lemma {:induction false} DecimalLength(n: nat, k: nat)
    requires k > 0 && n < Pow10(k)
    ensures |Decimal(n)| <= k
  {
    if n >= 10 {
      assert k > 1;
      DecimalLength(n / 10, k - 1);
    }
  }

  lemma Int64Length(n: Int64)
    requires n >= 0
    ensures |Decimal(n)| <= 19
  {
    assert Pow10(5) == 100000;
    assert Pow10(10) == 100000 * 100000;
    assert Pow10(15) == 100000 * 100000 * 100000;
    assert Pow10(19) == 10000 * 100000 * 100000 * 100000;
    DecimalLength(n, 19);
  }

  /** The value of a string of decimal digits. */
  function Value(s: string): int {
    if s == "" then 0 else 10 * Value(s[..|s| - 1]) + (s[|s| - 1] as int - '0' as int)
  }

  predicate AllDigits(s: string) {
    forall i | 0 <= i < |s| :: '0' <= s[i] <= '9'
  }

  /** Writing and reading a natural number. */
  lemma {:induction false} DecimalRoundTrip(n: nat)
    ensures AllDigits(Decimal(n)) && Value(Decimal(n)) == n
  {
    var s := Decimal(n);
    if n >= 10 {
      DecimalRoundTrip(n / 10);
      assert s[..|s| - 1] == Decimal(n / 10);
    } else {
      assert s[..0] == "";
    }
  }

  /** No zero comes first but in "0". */
  lemma {:induction false} DecimalLeads(n: nat)
    ensures if n == 0 then Decimal(n) == "0" else Decimal(n)[0] != '0'
  {
    if n >= 10 {
      DecimalLeads(n / 10);
      assert Decimal(n)[0] == Decimal(n / 10)[0];
    }
  }

  lemma OneMoreDigit(front: string, c: char)
    requires Value(front) > 0 && Decimal(Value(front)) == front && '0' <= c <= '9'
    ensures Value(front + [c]) > 0 && Decimal(Value(front + [c])) == front + [c]
  {
    var v, d := Value(front), c as int - '0' as int;
    assert (front + [c])[..|front|] == front;
    assert (10 * v + d) / 10 == v && (10 * v + d) % 10 == d;
  }

  /** Reading and writing a numeral without a leading zero. */
  lemma {:induction false} NumeralRoundTrip(s: string)
    requires s != "" && AllDigits(s) && (|s| > 1 ==> s[0] != '0')
    ensures Value(s) >= 0 && (s[0] != '0' ==> Value(s) > 0) && Decimal(Value(s)) == s
  {
    var front, c := s[..|s| - 1], s[|s| - 1];
    if front != "" {
      assert front[0] == s[0] && AllDigits(front);
      NumeralRoundTrip(front);
      OneMoreDigit(front, c);
      assert s == front + [c];
    } else {
      assert Value(s) == c as int - '0' as int;
      assert s == [c];
    }
  }

  predicate Occurs(text: string, part: string, at: int) {
    0 <= at && at + |part| <= |text| && text[at..at + |part|] == part
  }

  predicate Contains(text: string, part: string) {
    exists at | 0 <= at <= |text| :: Occurs(text, part, at)
  }

  lemma ContainsIn(before: string, text: string, after: string, part: string)
    requires Contains(text, part)
    ensures Contains(before + text + after, part)
  {
    var at :| 0 <= at <= |text| && Occurs(text, part, at);
    assert (before + text + after)[|before| + at..|before| + at + |part|] == text[at..at + |part|];
    assert Occurs(before + text + after, part, |before| + at);
  }
}
