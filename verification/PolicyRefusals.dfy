/** Why the policy-aware verification refuses a payment, and why a spending-limit event is at fault. */
module PolicyRefusals {
  import opened Wrappers
  import opened X402
  import opened Soroban
  import opened Manifest
  import opened Authorization
  import opened PolicyVerify
  import E = PolicyEvents
  import R = VerifyReasons

  // ---- Spending-limit events ----

  /** The event is named, has one more topic, and that is the payer. */
  predicate OfPayer(e: DiagnosticEvent, x: E.Expected) {
    e.Event? && e.topics == [Symbol("spending_limit_enforced"), Address(x.from)]
  }

  /** Its data has the four fields, with an i128 amount and total and a u32 rule. */
  predicate HasFields(e: DiagnosticEvent, amount: ScVal, rule: ScVal, total: ScVal, context: ScVal) {
    && e.Event? && e.data.Map? && amount.I128? && rule.U32? && total.I128?
    && E.FieldsOf(e.data.entries) == Some(SpendingFields(amount, context, rule, total))
  }

  /** Amount and rule are the payment's, and the total covers the amount. */
  predicate NumbersFit(amount: ScVal, rule: ScVal, total: ScVal, x: E.Expected)
    requires amount.I128? && rule.U32? && total.I128?
  {
    && amount.hi * TWO_TO_THE_64 + amount.lo == x.amount && rule.word == x.contextRuleId
    && total.hi * TWO_TO_THE_64 + total.lo >= x.amount
  }

  predicate IsContractContext(context: Native) {
    context.NArray? && |context.items| == 2 && context.items[0] == NString("Contract")
  }

  ghost predicate WellBuilt(e: DiagnosticEvent) {
    exists amount, rule, total, context :: HasFields(e, amount, rule, total, context)
  }

  /** An event without the name, or with other than one more topic, is malformed; one of another payer is not. */
  lemma TopicReasons(e: E.ContractEventRecord, x: E.Expected)
    ensures |e.topics| != 2 || e.topics[0] != Symbol("spending_limit_enforced") ==>
      E.SpendingLimitError(e, x) == Some(E.PolicyMalformed)
    ensures |e.topics| == 2 && e.topics[0] == Symbol("spending_limit_enforced") && e.topics[1] != Address(x.from) ==>
      E.SpendingLimitError(e, x) == Some(E.PolicyContextMismatch)
  {
  }

  /** So is one of the payer without the four fields of their types. */
  lemma FieldReasons(e: E.ContractEventRecord, x: E.Expected)
    requires OfPayer(e, x) && !WellBuilt(e)
    ensures E.SpendingLimitError(e, x) == Some(E.PolicyMalformed)
  {
    if e.data.Map? && E.FieldsOf(e.data.entries).Some? {
      var f := E.FieldsOf(e.data.entries).value;
      if f.Keys == E.SPENDING_LIMIT_KEYS {
        assert f == SpendingFields(f["amount"], f["context"], f["context_rule_id"], f["total_spent_in_period"]);
        assert !HasFields(e, f["amount"], f["context_rule_id"], f["total_spent_in_period"], f["context"]);
      }
    }
  }

  /** Of a well built one: other numbers or another call are out of context, no call is malformed, a null one throws. */
  lemma ValueReasons(
    e: E.ContractEventRecord, x: E.Expected, amount: ScVal, rule: ScVal, total: ScVal, context: ScVal)
    requires OfPayer(e, x) && HasFields(e, amount, rule, total, context)
    ensures E.SpendingLimitError(e, x) ==
      if !NumbersFit(amount, rule, total, x) then Some(E.PolicyContextMismatch)
      else if !IsContractContext(ToNative(context)) then Some(E.PolicyMalformed)
      else if ToNative(context).items[1] == NNull then Some(E.ThrewOnNullContext)
      else if EmbedsCall(ToNative(context), TransferSpec(x.token, x.from, x.to, x.amount)) then None
      else Some(E.PolicyContextMismatch)
  {
    var f := E.FieldsOf(e.data.entries).value;
    assert f.Keys == E.SPENDING_LIMIT_KEYS;
  }

  // ---- The transaction ----

  /** Reading three arguments as a transfer's throws at the first party that is not an address. */
  predicate PartiesThrow(args: seq<ScVal>, payer: string) {
    |args| == 3 && (!args[0].Address? || (args[0] == Address(payer) && !args[1].Address?))
  }

  /** The one host-function call of an unsigned transaction, when it is the token's transfer. */
  predicate CallsTransfer(tx: Option<Transaction>, token: string) {
    && tx != None && tx.value.signatures == 0 && |tx.value.operations| == 1
    && tx.value.operations[0].InvokeHostFunction? && tx.value.operations[0].func.InvokeContract?
    && tx.value.operations[0].func.contract == token && tx.value.operations[0].func.fn == "transfer"
  }

  /** Signed for the same ledger, with the payer's root the token's transfer, whose parties are then read. */
  predicate RootThrows(payer: AuthEntry, delegated: AuthEntry, t: TransferSpec) {
    && payer.credentials.AddressCredentials? && payer.credentials.address == t.from
    && delegated.credentials.AddressCredentials?
    && payer.credentials.signature != Void && delegated.credentials.signature != Void
    && payer.credentials.expiration == delegated.credentials.expiration
    && payer.root.ContractCall? && payer.root.subInvocations == []
    && payer.root.fn == "transfer" && payer.root.contract == t.token && PartiesThrow(payer.root.args, t.from)
  }

  /**
    Checking the transaction throws exactly at an address that is none: among the parties of the call, or, when the
    call pays, among those of the payer's root. Everything else it does not accept is invalid.
   */
  lemma TransactionThrowsIff(tx: Option<Transaction>, passphrase: string, t: TransferSpec, rule: Option<int>)
    ensures ValidateTransaction(tx, passphrase, t, rule).TxThrew? <==>
      && CallsTransfer(tx, t.token)
      && var op := tx.value.operations[0];
         || PartiesThrow(op.func.args, t.from)
         || (CallPays(op.func.contract, op.func.fn, op.func.args, t) && |op.auth| == 2
             && RootThrows(PayerEntry(op.auth, t), DelegatedEntry(op.auth, t), t))
  {
    if CallsTransfer(tx, t.token) && |tx.value.operations[0].auth| == 2 {
      var auth := tx.value.operations[0].auth;
      EntriesThrowIff(auth, t, passphrase, rule);
      var v := ValidateEntries(auth, t, passphrase, rule);
      if v.Valid? {
        PairPayer(auth, t, passphrase, rule);
        ValidIffEndorsed(auth, t, passphrase, rule, v.delegate, v.ruleIds);
      }
    }
  }

  lemma PairPayer(entries: seq<AuthEntry>, t: TransferSpec, passphrase: string, rule: Option<int>)
    ensures ValidateEntries(entries, t, passphrase, rule).Valid? ==>
      ValidateEntries(entries, t, passphrase, rule).payer == t.from
  {
  }

  lemma EntriesThrowIff(entries: seq<AuthEntry>, t: TransferSpec, passphrase: string, rule: Option<int>)
    requires |entries| == 2
    ensures ValidateEntries(entries, t, passphrase, rule) == Invalid(ThrewOnNonAddress) <==>
      RootThrows(PayerEntry(entries, t), DelegatedEntry(entries, t), t)
  {
    assert AddressOf(entries[0]) == Some(t.from) <==>
      entries[0].credentials.AddressCredentials? && entries[0].credentials.address == t.from;
  }

  // ---- The authorization entries ----

  /** Both signed for the same ledger, the payer's root the transfer function with nothing below it. */
  predicate SignedTransfer(payer: AuthEntry, delegated: AuthEntry) {
    && payer.credentials.AddressCredentials? && delegated.credentials.AddressCredentials?
    && payer.credentials.signature != Void && delegated.credentials.signature != Void
    && payer.credentials.expiration == delegated.credentials.expiration
    && payer.root.ContractCall? && payer.root.subInvocations == [] && payer.root.fn == "transfer"
  }

  /** The same for this payment, with a payload that can be read. */
  predicate SignedPayment(payer: AuthEntry, delegated: AuthEntry, t: TransferSpec) {
    && SignedTransfer(payer, delegated) && CallPays(payer.root.contract, payer.root.fn, payer.root.args, t)
    && ReadPayload(payer.credentials.signature) != None
  }

  /**
    What is wrong with the two entries, first failure first: unsigned, for different ledgers, another payment, an
    unexpected rule, another delegate, another digest; whatever has not the form of the two calls is ill structured.
   */
  lemma PairReasons(payer: AuthEntry, delegated: AuthEntry, t: TransferSpec, phrase: string, rule: Option<int>)
    requires payer.credentials.AddressCredentials? && payer.credentials.address == t.from
    ensures
      var v := ValidatePair(payer, delegated, t, phrase, rule);
      var p, d := payer.credentials, delegated.credentials;
      var signed := d.AddressCredentials? && p.signature != Void && d.signature != Void;
      var read := ReadPayload(p.signature);
      var readable := SignedPayment(payer, delegated, t);
      var selected := readable && (rule.Some? ==> read.value.ruleIds == [rule.value]);
      var ofDelegate := selected && d.address == read.value.delegate;
      var digest := AuthDigest(SignaturePayload(phrase, p.nonce, p.expiration, payer.root),
                               if readable then read.value.ruleIds else []);
      && (v == Invalid(EntryUnsigned) <==> d.AddressCredentials? && !signed)
      && (v == Invalid(ExpirationMismatch) <==> signed && p.expiration != d.expiration)
      && (v == Invalid(PayerMismatch) <==>
            && SignedTransfer(payer, delegated)
            && !CallPays(payer.root.contract, payer.root.fn, payer.root.args, t)
            && (payer.root.contract == t.token ==> !PartiesThrow(payer.root.args, t.from)))
      && (v == Invalid(RuleSelectionInvalid) <==> readable && !selected)
      && (v == Invalid(DelegateMismatch) <==> selected && !ofDelegate)
      && (v == Invalid(DigestMismatch) <==>
            && ofDelegate && delegated.root.ContractCall? && delegated.root.subInvocations == []
            && delegated.root.contract == t.from && delegated.root.fn == "__check_auth"
            && |delegated.root.args| == 1 && delegated.root.args[0].Bytes?
            && BlobLength(delegated.root.args[0].blob) == 32 && delegated.root.args[0].blob != digest)
      && (ofDelegate && delegated.root == ContractCall(t.from, "__check_auth", [Bytes(digest)], []) ==>
            v == Valid(t.from, d.address, read.value.ruleIds))
  {
  }

  // ---- The decision ----

  /** The five refusals of the request itself name no payer; they are checked in this order. */
  lemma RequestRefusals(r: Request)
    ensures
      var d := VerifyPolicyAwarePayment(r);
      var onNetwork := r.version == 2 && r.req.scheme == "exact" && r.req.network == r.manifest.network;
      && (d == Refused(None, R.InvalidVersion) <==> r.version != 2)
      && (d == Refused(None, R.InvalidScheme) <==> r.version == 2 && r.req.scheme != "exact")
      && (d == Refused(None, R.InvalidNetwork) <==>
            r.version == 2 && r.req.scheme == "exact" && r.req.network != r.manifest.network)
      && (d == Refused(None, R.WrongAmount) <==> onNetwork && !PositiveAmount(r.req.amount))
      && (d == Refused(None, R.PolicyManifestMismatch) <==>
            && onNetwork && PositiveAmount(r.req.amount)
            && r.manifest.smartAccount != None && r.manifest.smartAccount != Some("")
            && r.manifest.smartAccount != Some(r.payer))
      && (d.Refused? && d.named != None ==> d.named == Some(r.payer))
  {
  }

  /** The payer is one the manifest may be for, but its code was not observed or is not the pinned one. */
  lemma PayerCodeRefusal(r: Request)
    requires r.version == 2 && r.req.scheme == "exact" && r.req.network == r.manifest.network
    requires PositiveAmount(r.req.amount)
    requires r.manifest.smartAccount in {None, Some(""), Some(r.payer)}
    ensures !RequestFits(r) ==> VerifyPolicyAwarePayment(r) == Refused(Some(r.payer), R.PolicyManifestMismatch)
  {
  }

  /** Then the transaction, the rule it selects, the policy that rule is installed for, and the events. */
  lemma LaterRefusals(r: Request, delegate: string, ruleId: u32)
    requires RequestFits(r)
    ensures
      var d := VerifyPolicyAwarePayment(r);
      var tx := ValidateTransaction(r.tx, Passphrase(r.req.network), SpecOf(r), r.manifest.expectedRuleId);
      var mismatch := Refused(Some(r.payer), R.PolicyManifestMismatch);
      var allowed := r.manifest.allowedRuleIds == None || ruleId in r.manifest.allowedRuleIds.value;
      var dynamic := r.manifest.expectedRuleId == None;
      var pinned := r.manifest.recipientPolicy != None
                    && E.RunsPinned(r.hashes, r.manifest.recipientPolicy.value.contractId,
                                    r.manifest.recipientPolicy.value.expectedWasmHash);
      var found := r.lookUp(ruleId, r.payer);
      var installed := found == Installed(ObservedRule(ruleId, r.req.asset, r.req.payTo));
      && (tx.TxThrew? ==> d == Threw)
      && (tx.TxInvalid? ==> d == Refused(Some(r.payer), R.AuthStructure))
      && (tx == TxValid(r.payer, delegate, ruleId) ==>
            && (!allowed ==> d == mismatch)
            && (allowed && dynamic && !pinned ==> d == mismatch)
            && (allowed && dynamic && pinned && found.LookupThrew? ==> d == Threw)
            && (allowed && dynamic && pinned && !found.LookupThrew? && !installed ==> d == mismatch)
            && (allowed && (dynamic ==> pinned && installed) ==> d == DecideEvents(r, delegate, ruleId)))
  {
    RequestPassesIff(r);
  }

  /** A fault in the events is refused with the payer; a null call inside the context throws. */
  lemma EventRefusals(r: Request, delegate: string, ruleId: u32, reason: E.EventReason)
    requires PositiveAmount(r.req.amount)
    requires E.Verdict(r.events, ExpectedOf(SpecOf(r), ruleId), r.manifest, r.hashes) == E.Rejected(reason)
    ensures
      var d := DecideEvents(r, delegate, ruleId);
      && (reason == E.ThrewOnNullContext <==> d == Threw)
      && (reason == E.PolicyUnapproved <==> d == Refused(Some(r.payer), R.PolicyEventUnapproved))
      && (reason == E.PolicyMalformed || reason == E.PolicyDuplicate <==>
            d == Refused(Some(r.payer), R.PolicyEventMalformed))
      && (reason == E.PolicyContextMismatch <==> d == Refused(Some(r.payer), R.PolicyEventContextMismatch))
      && (reason == E.ManifestMismatch <==> d == Refused(Some(r.payer), R.PolicyManifestMismatch))
      && (d == Refused(Some(r.payer), R.UnexpectedBalanceChanges) <==>
            reason in {E.EventMissingContractId, E.EventNotTransfer, E.TransferMissing, E.TransferDuplicate,
                       E.TransferMismatch})
  {
  }
}
