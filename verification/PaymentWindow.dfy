/** The payer's fee and expiry formulas, and the bounds the facilitator checks them against. */
module PaymentWindow {
  import opened Wrappers
  import opened Decimal

  // ---- Expiry ----

  const LEDGER_CLOSE_SECONDS := 5

  /** Rounding up, for any sign of the numerator. */
  function CeilDiv(n: int, d: int): (q: int)
    requires d > 0
    ensures (q - 1) * d < n <= q * d
  {
    -((-n) / d)
  }

  function Max(a: int, b: int): int {
    if a > b then a else b
  }

  /** The expiry the payer signs at ledger latest. */
  function ValidUntil(latest: int, timeoutSeconds: int): int {
    latest + Max(2, CeilDiv(timeoutSeconds, LEDGER_CLOSE_SECONDS))
  }

  datatype Expiry = InWindow | AlreadyExpired | TooFar

  function CheckExpiry(expiration: int, current: int, timeoutSeconds: int): Expiry {
    if expiration <= current then AlreadyExpired
    else if expiration > current + CeilDiv(timeoutSeconds, LEDGER_CLOSE_SECONDS) then TooFar
    else InWindow
  }

  /** The window without rounding: not yet expired, and fewer whole closing times ahead than the timeout allows. */
  lemma WindowInSeconds(expiration: int, current: int, timeoutSeconds: int)
    ensures CheckExpiry(expiration, current, timeoutSeconds).InWindow? <==>
      current < expiration && 5 * (expiration - current - 1) < timeoutSeconds
    ensures CheckExpiry(expiration, current, timeoutSeconds).AlreadyExpired? <==> expiration <= current
  {
  }

  /** The facilitator's scan over the entries' expirations stops at the first one outside the window. */
  method ValidateExpirations(expirations: seq<int>, current: int, timeoutSeconds: int) returns (verdict: Expiry)
    ensures verdict.InWindow? <==>
      forall i :: 0 <= i < |expirations| ==> CheckExpiry(expirations[i], current, timeoutSeconds).InWindow?
    ensures !verdict.InWindow? ==> exists i ::
      && 0 <= i < |expirations|
      && verdict == CheckExpiry(expirations[i], current, timeoutSeconds)
      && forall j :: 0 <= j < i ==> CheckExpiry(expirations[j], current, timeoutSeconds).InWindow?
  {
    var maxAllowed := current + CeilDiv(timeoutSeconds, LEDGER_CLOSE_SECONDS);
    for i := 0 to |expirations|
      invariant forall j :: 0 <= j < i ==> CheckExpiry(expirations[j], current, timeoutSeconds).InWindow?
    {
      assert forall j :: 0 <= j < i ==> CheckExpiry(expirations[j], current, timeoutSeconds).InWindow?;
      if expirations[i] <= current {
        return AlreadyExpired;
      }
      if expirations[i] > maxAllowed {
        return TooFar;
      }
    }
    return InWindow;
  }

  /**
    When an authorization built at ledger built passes at ledger current. Above five seconds the window is the
    whole validity period; for one to five seconds the floor of two ledgers overshoots the facilitator's bound, so
    the build ledger itself is refused and only the next one accepts; a non-positive timeout never passes.
   */
  lemma AcceptanceWindow(built: int, current: int, timeoutSeconds: int)
    ensures CheckExpiry(ValidUntil(built, timeoutSeconds), current, timeoutSeconds).InWindow?
      <==> if timeoutSeconds > 5 then built <= current < ValidUntil(built, timeoutSeconds)
           else timeoutSeconds >= 1 && current == built + 1
  {
    var c := CeilDiv(timeoutSeconds, LEDGER_CLOSE_SECONDS);
    assert timeoutSeconds > 5 <==> c >= 2;
    assert 1 <= timeoutSeconds <= 5 <==> c == 1;
  }

  /** A payment checked at the ledger it was built at is accepted exactly when its timeout exceeds five seconds. */
  lemma AcceptedAtOnceIffLong(built: int, timeoutSeconds: int)
    ensures CheckExpiry(ValidUntil(built, timeoutSeconds), built, timeoutSeconds).InWindow? <==> timeoutSeconds > 5
  {
    AcceptanceWindow(built, built, timeoutSeconds);
  }

  // ---- Fee ----

  datatype FeeError = NoMinimumFee | InvalidCap | CapExceeded

  const BASE_FEE_HEADROOM := 100

  predicate IsUnsigned(s: string) {
    s != [] && AllDigits(s)
  }

  /** The simulated minimum, a tenth of it rounded up, and the base-fee headroom. */
  function FeeFor(minimum: nat): nat {
    minimum + (minimum + 9) / 10 + BASE_FEE_HEADROOM
  }

  function SelectTransactionFee(minResourceFee: Option<string>, cap: string): Result<string, FeeError> {
    if minResourceFee.None? || !IsUnsigned(minResourceFee.value) then Err(NoMinimumFee)
    else if !IsUnsigned(cap) || Parse(cap) <= 0 then Err(InvalidCap)
    else if FeeFor(Parse(minResourceFee.value)) > Parse(cap) then Err(CapExceeded)
    else Ok(Print(FeeFor(Parse(minResourceFee.value))))
  }

  datatype FeeCheck = FeeOk | BelowMinimum | AboveMaximum

  /** The facilitator's two bounds; an absent or empty one is not checked. */
  function CheckFee(fee: string, minResourceFee: Option<string>, cap: Option<string>): FeeCheck
    requires AllDigits(fee) && AllDigits(minResourceFee.GetOr([])) && AllDigits(cap.GetOr([]))
  {
    if minResourceFee.GetOr([]) != [] && fee != [] && Parse(fee) < Parse(minResourceFee.value) then BelowMinimum
    else if fee != [] && cap.GetOr([]) != [] && Parse(fee) > Parse(cap.value) then AboveMaximum
    else FeeOk
  }

  /**
    A fee selected under a cap within the facilitator's passes a re-simulation exactly when the new minimum is at
    most the old one plus a tenth of it rounded up plus the headroom.
   */
  lemma SelectedFeePasses(minimum: string, payerCap: string, verifierCap: Option<string>, resimulated: string)
    requires SelectTransactionFee(Some(minimum), payerCap).Ok?
    requires IsUnsigned(resimulated)
    requires verifierCap.Some? ==> IsUnsigned(verifierCap.value) && Parse(payerCap) <= Parse(verifierCap.value)
    ensures
      var fee := SelectTransactionFee(Some(minimum), payerCap).value;
      && AllDigits(fee)
      && (CheckFee(fee, Some(resimulated), verifierCap).FeeOk?
          <==> Parse(resimulated) <= Parse(minimum) + CeilDiv(Parse(minimum), 10) + BASE_FEE_HEADROOM)
  {
    ParsePrint(FeeFor(Parse(minimum)));
    assert CeilDiv(Parse(minimum), 10) == (Parse(minimum) + 9) / 10;
  }

  /**
    A fee is selected exactly for a numeric minimum whose fee, the minimum and a tenth of it rounded up and a hundred
    stroops, is within a numeric positive cap. It is that fee, in canonical form.
   */
  lemma SelectedIffWithinCap(minimum: Option<string>, cap: string)
    ensures SelectTransactionFee(minimum, cap).Ok? <==>
      && minimum.Some? && minimum.value != "" && AllDigits(minimum.value)
      && cap != "" && AllDigits(cap) && Parse(cap) > 0
      && Parse(minimum.value) + CeilDiv(Parse(minimum.value), 10) + 100 <= Parse(cap)
    ensures SelectTransactionFee(minimum, cap) == Err(NoMinimumFee) <==>
      minimum == None || minimum.value == "" || !AllDigits(minimum.value)
    ensures SelectTransactionFee(minimum, cap) == Err(InvalidCap) <==>
      && minimum.Some? && minimum.value != "" && AllDigits(minimum.value)
      && (cap == "" || !AllDigits(cap) || Parse(cap) == 0)
    ensures SelectTransactionFee(minimum, cap).Ok? ==>
      var fee := SelectTransactionFee(minimum, cap).value;
      && CanonicalNat(fee)
      && Parse(fee) == Parse(minimum.value) + CeilDiv(Parse(minimum.value), 10) + 100
  {
    if minimum.Some? && IsUnsigned(minimum.value) {
      ParsePrint(FeeFor(Parse(minimum.value)));
      assert CeilDiv(Parse(minimum.value), 10) == (Parse(minimum.value) + 9) / 10;
    }
  }
}
