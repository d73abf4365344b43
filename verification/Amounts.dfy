/** Atomic amounts and their decimal notation, at the level of strings. */
module Amounts {
  import opened Wrappers
  import opened Decimal

  datatype AmountError = NotAnUnsignedInteger | NotADecimal | TooManyDecimals | NotPositive

  function ParseAtomicAmount(value: string): Result<nat, AmountError> {
    if value == [] || !AllDigits(value) then Err(NotAnUnsignedInteger)
    else if Parse(value) <= 0 then Err(NotPositive)
    else Ok(Parse(value))
  }

  /** An atomic amount is a positive number in digits, leading zeros allowed; the first fault is reported. */
  lemma AtomicAmounts(value: string)
    ensures forall n: nat :: ParseAtomicAmount(value) == Ok(n) <==>
      n > 0 && value != "" && AllDigits(value) && Parse(value) == n
    ensures ParseAtomicAmount(value) == Err(NotAnUnsignedInteger) <==> value == "" || !AllDigits(value)
    ensures ParseAtomicAmount(value) == Err(NotPositive) <==>
      value != "" && AllDigits(value) && value == Zeros(|value|)
  {
    if AllDigits(value) {
      ZeroIsZeros(value);
    }
  }

  lemma {:induction false} ZeroIsZeros(s: string)
    requires AllDigits(s)
    ensures Parse(s) == 0 <==> s == Zeros(|s|)
    decreases |s|
  {
    if s != [] {
      var front, last := s[..|s| - 1], s[|s| - 1];
      ZeroIsZeros(front);
      assert s == front + [last];
      assert Zeros(|s|) == Zeros(|front|) + ['0'];
      assert DigitValue(last) == 0 <==> last == '0';
      if s == Zeros(|s|) {
        assert s[|s| - 1] == '0' && s[..|s| - 1] == Zeros(|s|)[..|s| - 1];
      }
    }
  }

  /** The text before the first point, and after it if there is one. */
  function Split(s: string): (r: (string, Option<string>))
    ensures '.' !in r.0
    ensures s == if r.1.None? then r.0 else r.0 + "." + r.1.value
  {
    if s == [] then ([], None)
    else if s[0] == '.' then ([], Some(s[1..]))
    else
      var rest := Split(s[1..]);
      ([s[0]] + rest.0, rest.1)
  }

  /** Digits, optionally followed by a point and more digits. */
  predicate IsDecimal(s: string) {
    var parts := Split(s);
    && parts.0 != [] && AllDigits(parts.0)
    && (parts.1.Some? ==> parts.1.value != [] && AllDigits(parts.1.value))
  }

  function Whole(s: string): string {
    Split(s).0
  }

  function Fraction(s: string): string {
    Split(s).1.GetOr([])
  }

  function FractionAtoms(fraction: string, decimals: nat): nat
    requires AllDigits(fraction)
  {
    var padded := PadEnd(fraction, decimals);
    if padded == [] then Parse("0") else Parse(padded)
  }

  function DecimalToAtomic(value: string, decimals: nat): Result<nat, AmountError> {
    if !IsDecimal(value) then Err(NotADecimal)
    else if |Fraction(value)| > decimals then Err(TooManyDecimals)
    else
      var atomic := Parse(Whole(value)) * Pow10(decimals) + FractionAtoms(Fraction(value), decimals);
      if atomic <= 0 then Err(NotPositive) else Ok(atomic)
  }

  /** Integer division of naturals, by repeated subtraction so that proofs stay linear. */
  function Quotient(n: nat, d: nat): (q: nat)
    requires d > 0
    ensures q * d <= n < q * d + d
    decreases n
  {
    if n < d then 0 else 1 + Quotient(n - d, d)
  }

  function Remainder(n: nat, d: nat): (r: nat)
    requires d > 0
    ensures r < d && n == Quotient(n, d) * d + r
  {
    n - Quotient(n, d) * d
  }

  lemma QuotientIsDivision(n: nat, d: nat)
    requires d > 0
    ensures Quotient(n, d) == n / d && Remainder(n, d) == n % d
  {
    assert n == (n / d) * d + n % d;
    SameMultiple(n / d, Quotient(n, d), n % d, d);
  }

  function Join(whole: string, fraction: string): string {
    if fraction == [] then whole else whole + "." + fraction
  }

  function AtomicToDecimal(amount: nat, decimals: nat): string {
    var divisor := Pow10(decimals);
    Join(Print(Quotient(amount, divisor)), StripTrailing(PadStart(Print(Remainder(amount, divisor)), decimals)))
  }

  /** No superfluous zero on either side, and no bare point. */
  predicate Canonical(s: string) {
    && IsDecimal(s)
    && CanonicalNat(Whole(s))
    && (Fraction(s) == [] || Fraction(s)[|Fraction(s)| - 1] != '0')
  }

  /** The same decimal without superfluous zeros. */
  function Normalize(s: string): string
    requires IsDecimal(s)
  {
    Join(StripLeading(Whole(s)), StripTrailing(Fraction(s)))
  }

  // ---- Splitting and joining ----

  lemma {:induction false} SplitJoin(whole: string, fraction: string)
    requires '.' !in whole
    ensures Split(Join(whole, fraction)) == (whole, if fraction == [] then None else Some(fraction))
    decreases |whole|
  {
    var s := Join(whole, fraction);
    if whole == [] {
      assert fraction != [] ==> s[1..] == fraction;
    } else {
      assert s[1..] == Join(whole[1..], fraction);
      SplitJoin(whole[1..], fraction);
      assert [whole[0]] + whole[1..] == whole;
    }
  }

  lemma JoinIsDecimal(whole: string, fraction: string)
    requires whole != [] && AllDigits(whole) && AllDigits(fraction)
    ensures IsDecimal(Join(whole, fraction))
    ensures Whole(Join(whole, fraction)) == whole && Fraction(Join(whole, fraction)) == fraction
  {
    SplitJoin(whole, fraction);
  }

  // ---- The fraction field ----

  lemma FractionAtomsScale(fraction: string, decimals: nat)
    requires AllDigits(fraction) && |fraction| <= decimals
    ensures FractionAtoms(fraction, decimals) == Parse(fraction) * Pow10(decimals - |fraction|)
    ensures FractionAtoms(fraction, decimals) < Pow10(decimals)
  {
    var k := decimals - |fraction|;
    ParseTrailingZeros(fraction, k);
    assert fraction + Zeros(k) == PadEnd(fraction, decimals);
    ParseBelow(PadEnd(fraction, decimals));
  }

  lemma {:induction false} StripKeepsPadding(s: string, width: nat)
    requires |s| <= width
    ensures PadEnd(StripTrailing(s), width) == PadEnd(s, width)
    decreases |s|
  {
    if s != [] && s[|s| - 1] == '0' {
      var front := s[..|s| - 1];
      StripKeepsPadding(front, width);
      ShiftZero(front, width - |s|);
      assert front + ['0'] == s;
      assert s + Zeros(0) == s;
    }
  }

  lemma ShiftZero(s: string, k: nat)
    ensures (s + ['0']) + Zeros(k) == s + Zeros(k + 1)
  {
  }

  lemma StripKeepsDigits(s: string)
    requires AllDigits(s)
    ensures AllDigits(StripTrailing(s)) && |StripTrailing(s)| <= |s|
  {
    StripTrailingShape(s);
    assert forall i :: 0 <= i < |StripTrailing(s)| ==> StripTrailing(s)[i] == s[i];
  }

  lemma StripKeepsAtoms(fraction: string, decimals: nat)
    requires AllDigits(fraction) && |fraction| <= decimals
    ensures AllDigits(StripTrailing(fraction)) && |StripTrailing(fraction)| <= |fraction|
    ensures FractionAtoms(StripTrailing(fraction), decimals) == FractionAtoms(fraction, decimals)
  {
    StripKeepsDigits(fraction);
    StripKeepsPadding(fraction, decimals);
  }

  lemma {:induction false} PrintFits(r: nat, width: nat)
    requires width > 0 && r < Pow10(width)
    ensures |Print(r)| <= width
    decreases width
  {
    if r >= 10 {
      PrintFits(r / 10, width - 1);
    }
  }

  /** Printing into a field of fixed width keeps the value. */
  lemma FixedField(r: nat, width: nat)
    requires width > 0 && r < Pow10(width)
    ensures
      var field := PadStart(Print(r), width);
      |field| == width && AllDigits(field) && Parse(field) == r
  {
    ParsePrint(r);
    PrintFits(r, width);
    PadStartPrepends(Print(r), width);
    ParseLeadingZeros(width - |Print(r)|, Print(r));
  }

  lemma PadStartPrepends(s: string, width: nat)
    requires |s| <= width
    ensures PadStart(s, width) == Zeros(width - |s|) + s
  {
  }

  lemma FullFieldAtoms(field: string)
    requires field != [] && AllDigits(field)
    ensures FractionAtoms(field, |field|) == Parse(field)
  {
    assert PadEnd(field, |field|) == field;
  }

  lemma EmptyField()
    ensures StripTrailing(PadStart(Print(0), 0)) == [] && FractionAtoms([], 0) == 0
  {
    assert Print(0) == "0" && PadStart("0", 0) == "0";
    assert StripTrailing("0") == StripTrailing([]);
  }

  /** The printed fraction field of a remainder below the divisor. */
  lemma RemainderField(r: nat, decimals: nat)
    requires r < Pow10(decimals)
    ensures
      var field := StripTrailing(PadStart(Print(r), decimals));
      && AllDigits(field) && |field| <= decimals && FractionAtoms(field, decimals) == r
  {
    if decimals == 0 {
      EmptyField();
    } else {
      var field := PadStart(Print(r), decimals);
      FixedField(r, decimals);
      FullFieldAtoms(field);
      StripKeepsAtoms(field, decimals);
    }
  }

  // ---- Main results ----

  function Scaled(w: nat, x: nat, d: nat): Result<nat, AmountError> {
    if w * d + x <= 0 then Err(NotPositive) else Ok(w * d + x)
  }

  lemma ReadParts(value: string, whole: string, fraction: string, decimals: nat)
    requires IsDecimal(value) && Whole(value) == whole && Fraction(value) == fraction && |fraction| <= decimals
    ensures DecimalToAtomic(value, decimals)
      == Scaled(Parse(whole), FractionAtoms(fraction, decimals), Pow10(decimals))
  {
  }

  lemma ReadJoined(whole: string, fraction: string, decimals: nat)
    requires whole != [] && AllDigits(whole) && AllDigits(fraction) && |fraction| <= decimals
    ensures DecimalToAtomic(Join(whole, fraction), decimals)
      == Scaled(Parse(whole), FractionAtoms(fraction, decimals), Pow10(decimals))
  {
    JoinIsDecimal(whole, fraction);
    ReadParts(Join(whole, fraction), whole, fraction, decimals);
  }

  lemma PartsReadBack(q: nat, r: nat, decimals: nat)
    requires r < Pow10(decimals)
    ensures DecimalToAtomic(Join(Print(q), StripTrailing(PadStart(Print(r), decimals))), decimals)
      == Scaled(q, r, Pow10(decimals))
  {
    var field := StripTrailing(PadStart(Print(r), decimals));
    RemainderField(r, decimals);
    ParsePrint(q);
    ReadJoined(Print(q), field, decimals);
  }

  /** Every positive amount survives printing and parsing, for every number of decimals; zero is refused. */
  lemma PrintThenParse(amount: nat, decimals: nat)
    ensures DecimalToAtomic(AtomicToDecimal(amount, decimals), decimals)
      == if amount > 0 then Ok(amount) else Err(NotPositive)
  {
    PartsReadBack(Quotient(amount, Pow10(decimals)), Remainder(amount, Pow10(decimals)), decimals);
  }

  lemma JoinIsCanonical(whole: string, field: string)
    requires CanonicalNat(whole) && AllDigits(field) && (field == [] || field[|field| - 1] != '0')
    ensures Canonical(Join(whole, field)) && Fraction(Join(whole, field)) == field
  {
    JoinIsDecimal(whole, field);
  }

  lemma PrintIsCanonical(amount: nat, decimals: nat)
    ensures Canonical(AtomicToDecimal(amount, decimals))
    ensures |Fraction(AtomicToDecimal(amount, decimals))| <= decimals
  {
    var q, r := Quotient(amount, Pow10(decimals)), Remainder(amount, Pow10(decimals));
    var field := PadStart(Print(r), decimals);
    RemainderField(r, decimals);
    StripTrailingShape(field);
    ParsePrint(q);
    JoinIsCanonical(Print(q), StripTrailing(field));
  }

  lemma PrintIsInjective(a: nat, b: nat, decimals: nat)
    requires AtomicToDecimal(a, decimals) == AtomicToDecimal(b, decimals)
    ensures a == b
  {
    PrintThenParse(a, decimals);
    PrintThenParse(b, decimals);
  }

  /** What acceptance of a decimal says about its parts. */
  lemma AcceptedParts(value: string, decimals: nat)
    requires DecimalToAtomic(value, decimals).Ok?
    ensures IsDecimal(value) && |Fraction(value)| <= decimals
    ensures DecimalToAtomic(value, decimals)
      == Scaled(Parse(Whole(value)), FractionAtoms(Fraction(value), decimals), Pow10(decimals))
  {
  }

  /** The atoms over ten to the decimals are the whole part plus the fraction over ten to its length. */
  predicate SameValue(atomic: nat, decimals: nat, whole: nat, fraction: nat, length: nat) {
    atomic * Pow10(length) == (whole * Pow10(length) + fraction) * Pow10(decimals)
  }

  /** An accepted decimal is scaled exactly. */
  lemma ParseScales(value: string, decimals: nat)
    requires DecimalToAtomic(value, decimals).Ok?
    ensures SameValue(DecimalToAtomic(value, decimals).value, decimals,
                      Parse(Whole(value)), Parse(Fraction(value)), |Fraction(value)|)
  {
    AcceptedParts(value, decimals);
    FractionAtomsScale(Fraction(value), decimals);
    PartsScale(
      DecimalToAtomic(value, decimals).value, Parse(Whole(value)), Parse(Fraction(value)),
      FractionAtoms(Fraction(value), decimals), |Fraction(value)|, decimals);
  }

  lemma PartsScale(atomic: nat, w: nat, f: nat, x: nat, n: nat, decimals: nat)
    requires n <= decimals && x == f * Pow10(decimals - n) && Scaled(w, x, Pow10(decimals)) == Ok(atomic)
    ensures SameValue(atomic, decimals, w, f, n)
  {
    Pow10Adds(decimals - n, n);
    CrossMultiply(atomic, w, f, x, Pow10(n), Pow10(decimals - n), Pow10(decimals));
  }

  lemma CrossMultiply(a: nat, w: nat, f: nat, x: nat, p: nat, q: nat, d: nat)
    requires Scaled(w, x, d) == Ok(a) && d == q * p && x == f * q
    ensures a * p == (w * p + f) * d
  {
    assert (w * d + x) * p == w * d * p + f * q * p;
  }

  lemma PrintParts(atomic: nat, q: nat, r: nat, decimals: nat, whole: string, field: string)
    requires r < Pow10(decimals) && atomic == q * Pow10(decimals) + r
    requires whole == Print(q) && field == PadStart(Print(r), decimals)
    ensures AtomicToDecimal(atomic, decimals) == Join(whole, StripTrailing(field))
  {
    QuotientAndRemainder(atomic, q, r, Pow10(decimals));
  }

  lemma PrintsNormal(value: string, decimals: nat)
    requires DecimalToAtomic(value, decimals).Ok?
    ensures AtomicToDecimal(DecimalToAtomic(value, decimals).value, decimals) == Normalize(value)
  {
    var q, r := Parse(Whole(value)), FractionAtoms(Fraction(value), decimals);
    var whole, field := Print(q), PadStart(Print(r), decimals);
    AcceptedParts(value, decimals);
    FractionAtomsScale(Fraction(value), decimals);
    PrintParts(DecimalToAtomic(value, decimals).value, q, r, decimals, whole, field);
    PrintStripsLeading(Whole(value));
    FieldRestored(Fraction(value), decimals, field);
  }

  /** Printing an accepted decimal normalizes its text; printed and parsed text denote the same amount. */
  lemma ParseThenPrint(value: string, decimals: nat)
    requires DecimalToAtomic(value, decimals).Ok?
    ensures AtomicToDecimal(DecimalToAtomic(value, decimals).value, decimals) == Normalize(value)
    ensures DecimalToAtomic(Normalize(value), decimals) == DecimalToAtomic(value, decimals)
  {
    PrintsNormal(value, decimals);
    AcceptedIsPositive(value, decimals);
    PrintThenParse(DecimalToAtomic(value, decimals).value, decimals);
  }

  lemma AcceptedIsPositive(value: string, decimals: nat)
    requires DecimalToAtomic(value, decimals).Ok?
    ensures DecimalToAtomic(value, decimals).value > 0
  {
  }

  lemma QuotientAndRemainder(n: nat, q: nat, r: nat, d: nat)
    requires r < d && n == q * d + r
    ensures Quotient(n, d) == q && Remainder(n, d) == r
  {
    SameMultiple(q, Quotient(n, d), r, d);
  }

  lemma SameMultiple(q: nat, k: nat, r: nat, d: nat)
    requires r < d && k * d <= q * d + r < k * d + d
    ensures k == q
  {
    assert (k - q) * d == k * d - q * d;
    if k - q >= 1 {
      MulMonotone(1, k - q, d);
    } else if q - k >= 1 {
      MulMonotone(1, q - k, d);
    }
  }

  lemma MulMonotone(a: int, b: int, d: nat)
    requires a <= b
    ensures a * d <= b * d
  {
  }

  lemma StrippedDigits(whole: string)
    requires AllDigits(whole)
    ensures AllDigits(StripLeading(whole))
  {
    var r := StripLeading(whole);
    StripLeadingShape(whole);
    assert forall i :: 0 <= i < |r| ==> r[i] == whole[|whole| - |r| + i];
  }

  lemma PrintStripsLeading(whole: string)
    requires whole != [] && AllDigits(whole)
    ensures Print(Parse(whole)) == StripLeading(whole)
  {
    var r := StripLeading(whole);
    StrippedDigits(whole);
    StripLeadingShape(whole);
    ParseLeadingZeros(|whole| - |r|, r);
    PrintParse(r);
  }

  /** The text a fraction is read as: its digits and zeros up to the full width. */
  lemma FullField(fraction: string, decimals: nat)
    requires AllDigits(fraction) && |fraction| <= decimals && decimals > 0
    ensures
      var field := fraction + Zeros(decimals - |fraction|);
      && |field| == decimals && AllDigits(field) && FractionAtoms(fraction, decimals) == Parse(field)
  {
    PadEndAppends(fraction, decimals);
    ParseTrailingZeros(fraction, decimals - |fraction|);
  }

  /** Printed back into its field, a fraction's value is that text again. */
  lemma FieldOfAtoms(fraction: string, decimals: nat)
    requires AllDigits(fraction) && |fraction| <= decimals && decimals > 0
    ensures PadStart(Print(FractionAtoms(fraction, decimals)), decimals) == fraction + Zeros(decimals - |fraction|)
  {
    FullField(fraction, decimals);
    ReprintedField(fraction + Zeros(decimals - |fraction|));
  }

  lemma StripField(field: string, fraction: string, k: nat)
    requires field == fraction + Zeros(k)
    ensures StripTrailing(field) == StripTrailing(fraction)
  {
    StripIgnoresZeros(fraction, k);
  }

  lemma FieldRestored(fraction: string, decimals: nat, field: string)
    requires AllDigits(fraction) && |fraction| <= decimals
    requires field == PadStart(Print(FractionAtoms(fraction, decimals)), decimals)
    ensures StripTrailing(field) == StripTrailing(fraction)
  {
    if decimals == 0 {
      assert fraction == [];
      EmptyField();
    } else {
      FieldOfAtoms(fraction, decimals);
      StripField(field, fraction, decimals - |fraction|);
    }
  }

  lemma PadEndAppends(s: string, width: nat)
    requires |s| <= width
    ensures PadEnd(s, width) == s + Zeros(width - |s|)
  {
  }

  lemma ReprintedField(field: string)
    requires field != [] && AllDigits(field)
    ensures PadStart(Print(Parse(field)), |field|) == field
  {
    ParseBelow(field);
    FixedField(Parse(field), |field|);
    ParseFixedWidth(PadStart(Print(Parse(field)), |field|), field);
  }

  lemma {:induction false} StripIgnoresZeros(s: string, k: nat)
    ensures StripTrailing(s + Zeros(k)) == StripTrailing(s)
    decreases k
  {
    if k == 0 {
      assert s + Zeros(0) == s;
    } else {
      var t := s + Zeros(k);
      assert t[..|t| - 1] == s + Zeros(k - 1);
      StripIgnoresZeros(s, k - 1);
    }
  }

  lemma CanonicalIsNormal(value: string)
    requires Canonical(value)
    ensures Normalize(value) == value
  {
  }

  /** The printer writes exactly the canonical decimals: an accepted text is reproduced if and only if canonical. */
  lemma ReproducedIffCanonical(value: string, decimals: nat)
    requires DecimalToAtomic(value, decimals).Ok?
    ensures AtomicToDecimal(DecimalToAtomic(value, decimals).value, decimals) == value <==> Canonical(value)
  {
    PrintIsCanonical(DecimalToAtomic(value, decimals).value, decimals);
    ParseThenPrint(value, decimals);
    if Canonical(value) {
      CanonicalIsNormal(value);
    }
  }
}
