/** Decimal digit strings and the natural numbers they denote. */
module Decimal {

  predicate IsDigit(c: char) {
    '0' <= c <= '9'
  }

  predicate AllDigits(s: string) {
    forall i :: 0 <= i < |s| ==> IsDigit(s[i])
  }

  function DigitValue(c: char): (d: nat)
    requires IsDigit(c)
    ensures d < 10
  {
    c as int - '0' as int
  }

  function DigitChar(d: nat): (c: char)
    requires d < 10
    ensures IsDigit(c) && DigitValue(c) == d
  {
    ('0' as int + d) as char
  }

  function Pow10(n: nat): (p: nat)
    ensures p >= 1
  {
    if n == 0 then 1 else 10 * Pow10(n - 1)
  }

  function Parse(s: string): nat
    requires AllDigits(s)
  {
    if s == [] then 0 else 10 * Parse(s[..|s| - 1]) + DigitValue(s[|s| - 1])
  }

  function Print(n: nat): (s: string)
    ensures AllDigits(s) && s != []
  {
    if n < 10 then [DigitChar(n)] else Print(n / 10) + [DigitChar(n % 10)]
  }

  function Zeros(k: nat): (s: string)
    ensures |s| == k && AllDigits(s)
  {
    seq(k, _ => '0')
  }

  function PadStart(s: string, width: nat): string {
    if |s| >= width then s else Zeros(width - |s|) + s
  }

  function PadEnd(s: string, width: nat): string {
    if |s| >= width then s else s + Zeros(width - |s|)
  }

  function StripTrailing(s: string): string {
    if s != [] && s[|s| - 1] == '0' then StripTrailing(s[..|s| - 1]) else s
  }

  function StripLeading(s: string): string {
    if |s| > 1 && s[0] == '0' then StripLeading(s[1..]) else s
  }

  /** Stripping removes the trailing zeros and nothing else. */
  lemma {:induction false} StripTrailingShape(s: string)
    ensures
      var r := StripTrailing(s);
      && |r| <= |s| && s == r + Zeros(|s| - |r|)
      && (r == [] || r[|r| - 1] != '0')
    decreases |s|
  {
    if s != [] && s[|s| - 1] == '0' {
      var front := s[..|s| - 1];
      StripTrailingShape(front);
      assert s == front + ['0'];
      assert Zeros(|s| - |StripTrailing(s)|) == Zeros(|front| - |StripTrailing(s)|) + ['0'];
    }
  }

  /** Stripping removes the leading zeros, but never the last digit. */
  lemma {:induction false} StripLeadingShape(s: string)
    ensures
      var r := StripLeading(s);
      && |r| <= |s| && s == Zeros(|s| - |r|) + r
      && (s != [] ==> r != []) && (|r| > 1 ==> r[0] != '0')
    decreases |s|
  {
    if |s| > 1 && s[0] == '0' {
      StripLeadingShape(s[1..]);
      assert s == ['0'] + s[1..];
      assert Zeros(|s| - |StripLeading(s)|) == ['0'] + Zeros(|s| - 1 - |StripLeading(s)|);
    }
  }

  /** No superfluous leading zero. */
  predicate CanonicalNat(s: string) {
    s != [] && AllDigits(s) && (|s| > 1 ==> s[0] != '0')
  }

  lemma {:induction false} ParsePrint(n: nat)
    ensures Parse(Print(n)) == n
    ensures CanonicalNat(Print(n))
    ensures n > 0 ==> Print(n)[0] != '0'
    decreases n
  {
    if n >= 10 {
      ParsePrint(n / 10);
      assert Print(n)[..|Print(n)| - 1] == Print(n / 10);
    }
  }

  lemma {:induction false} ParseConcat(a: string, b: string)
    requires AllDigits(a) && AllDigits(b)
    ensures AllDigits(a + b) && Parse(a + b) == Parse(a) * Pow10(|b|) + Parse(b)
    decreases |b|
  {
    if b == [] {
      assert a + b == a;
    } else {
      var front := b[..|b| - 1];
      ParseConcat(a, front);
      assert (a + b)[..|a + b| - 1] == a + front;
      ShiftedSum(Parse(a), Pow10(|front|), Parse(front), DigitValue(b[|b| - 1]));
    }
  }

  lemma ShiftedSum(x: nat, p: nat, y: nat, d: nat)
    ensures 10 * (x * p + y) + d == x * (10 * p) + (10 * y + d)
  {
  }

  lemma {:induction false} ParseZeros(k: nat)
    ensures Parse(Zeros(k)) == 0
  {
    if k > 0 {
      ParseZeros(k - 1);
      assert Zeros(k)[..k - 1] == Zeros(k - 1);
    }
  }

  lemma ParseLeadingZeros(k: nat, s: string)
    requires AllDigits(s)
    ensures AllDigits(Zeros(k) + s) && Parse(Zeros(k) + s) == Parse(s)
  {
    ParseZeros(k);
    ParseConcat(Zeros(k), s);
  }

  lemma ParseTrailingZeros(s: string, k: nat)
    requires AllDigits(s)
    ensures AllDigits(s + Zeros(k)) && Parse(s + Zeros(k)) == Parse(s) * Pow10(k)
  {
    ParseZeros(k);
    ParseConcat(s, Zeros(k));
  }

  lemma {:induction false} ParseBelow(s: string)
    requires AllDigits(s)
    ensures Parse(s) < Pow10(|s|)
    decreases |s|
  {
    if s != [] {
      ParseBelow(s[..|s| - 1]);
    }
  }

  /** Among strings of one width the number determines the string. */
  lemma {:induction false} ParseFixedWidth(a: string, b: string)
    requires AllDigits(a) && AllDigits(b) && |a| == |b| && Parse(a) == Parse(b)
    ensures a == b
    decreases |a|
  {
    if a != [] {
      var n := |a| - 1;
      ParseFixedWidth(a[..n], b[..n]);
      assert DigitValue(a[n]) == DigitValue(b[n]);
      assert a == a[..n] + [a[n]] && b == b[..n] + [b[n]];
    }
  }

  /** Printing is the only canonical notation of a number. */
  lemma {:induction false} PrintParse(s: string)
    requires CanonicalNat(s)
    ensures Print(Parse(s)) == s
    decreases |s|
  {
    if |s| == 1 {
      assert s[..0] == [];
    } else {
      var front := s[..|s| - 1];
      PrintParse(front);
      LeadingDigitPositive(front);
      assert s == front + [s[|s| - 1]];
    }
  }

  lemma {:induction false} LeadingDigitPositive(s: string)
    requires AllDigits(s) && s != [] && s[0] != '0'
    ensures Parse(s) > 0
    decreases |s|
  {
    if |s| > 1 {
      LeadingDigitPositive(s[..|s| - 1]);
    }
  }

  lemma {:induction false} Pow10Adds(m: nat, n: nat)
    ensures Pow10(m + n) == Pow10(m) * Pow10(n)
    decreases n
  {
    if n > 0 {
      Pow10Adds(m, n - 1);
      ShiftedSum(Pow10(m), Pow10(n - 1), 0, 0);
    }
  }
}
