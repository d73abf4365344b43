/** The reasons a verification can be refused for. */
module VerifyReasons {

  datatype VerifyReason =
    | InvalidVersion
    | InvalidScheme
    | InvalidNetwork
    | Malformed
    | WrongOperation
    | WrongAsset
    | WrongFunctionName
    | WrongFunctionArgs
    | WrongRecipient
    | WrongAmount
    | SimulationFailed
    | UnsafeSource
    | UnsafeFromAddress
    | FacilitatorInAuth
    | HasSubInvocations
    | NoTransferEvents
    | EventNotTransfer
    | EventMissingContractId
    | UnexpectedBalanceChanges
    | HasEnvelopeSignatures
    | MissingAuthEntries
    | MissingPayerAuth
    | UnsignedAuthEntry
    | ExpirationTooFar
    | AlreadyExpired
    | UnsupportedCredential
    | FeeBelowMinimum
    | FeeAboveMaximum
    | AuthStructure
    | PolicyEventUnapproved
    | PolicyEventMalformed
    | PolicyEventContextMismatch
    | PolicyManifestMismatch
    | UnsafePolicyParticipant
    | VerifyNetworkMismatch
    | UnsupportedAsset
    | UnexpectedVerifyError
}

/** The policy-aware verification of one payment: transaction, authorization, manifest, installed rule and events. */
module PolicyVerify {
  import opened Wrappers
  import opened Decimal
  import opened X402
  import opened Soroban
  import opened Manifest
  import opened Authorization
  import PolicyEvents
  import PolicyEventTheorems
  import opened VerifyReasons

  // ---- The transaction ----

  datatype TxVerdict = TxValid(payer: string, delegate: string, ruleId: u32) | TxInvalid(reason: AuthReason) | TxThrew

  /** One host-function call, no envelope signatures; a transaction that does not decode is None. */
  function ValidateTransaction(
    tx: Option<Transaction>, passphrase: string, t: TransferSpec, expectedRule: Option<int>): TxVerdict
  {
    if tx.None? || tx.value.signatures != 0 || |tx.value.operations| != 1 then TxInvalid(StructureInvalid)
    else
      var operation := tx.value.operations[0];
      if !operation.InvokeHostFunction? || !operation.func.InvokeContract? then TxInvalid(StructureInvalid)
      else
        var call := operation.func;
        if call.contract != t.token || call.fn != "transfer" then TxInvalid(StructureInvalid)
        else
          match ArgsMatch(call.args, t)
          case Err(_) => TxThrew
          case Ok(false) => TxInvalid(StructureInvalid)
          case Ok(true) =>
            match ValidateEntries(operation.auth, t, passphrase, expectedRule)
            case Valid(payer, delegate, ruleIds) =>
              if ruleIds == [] then TxThrew else TxValid(payer, delegate, ruleIds[0])
            case Invalid(reason) => if reason.ThrewOnNonAddress? then TxThrew else TxInvalid(reason)
  }

  /** The transaction calls the transfer once, unsigned, and carries the two entries that endorse it. */
  predicate TransactionPays(
    tx: Option<Transaction>, passphrase: string, t: TransferSpec, delegate: string, ruleIds: seq<u32>)
  {
    && tx.Some? && tx.value.signatures == 0 && |tx.value.operations| == 1
    && var operation := tx.value.operations[0];
    && operation.InvokeHostFunction? && operation.func.InvokeContract?
    && operation.func.contract == t.token && operation.func.fn == "transfer"
    && ArgsMatch(operation.func.args, t) == Ok(true)
    && |operation.auth| == 2
    && Endorses(PayerEntry(operation.auth, t), DelegatedEntry(operation.auth, t), t, passphrase, delegate, ruleIds)
  }

  lemma TransactionValidIff(
    tx: Option<Transaction>, passphrase: string, t: TransferSpec, rule: Option<int>, delegate: string, ruleId: u32)
    ensures ValidateTransaction(tx, passphrase, t, rule) == TxValid(t.from, delegate, ruleId)
      <==> exists ids: seq<u32> ::
             && TransactionPays(tx, passphrase, t, delegate, ids) && ids[0] == ruleId
             && (rule.Some? ==> ids == [rule.value])
  {
    if tx.Some? && |tx.value.operations| == 1 && tx.value.operations[0].InvokeHostFunction? {
      var auth := tx.value.operations[0].auth;
      var v := ValidateEntries(auth, t, passphrase, rule);
      if v.Valid? {
        ValidIffEndorsed(auth, t, passphrase, rule, delegate, v.ruleIds);
      }
      forall ids: seq<u32> | TransactionPays(tx, passphrase, t, delegate, ids) && (rule.Some? ==> ids == [rule.value])
        ensures v == Valid(t.from, delegate, ids)
      {
        ValidIffEndorsed(auth, t, passphrase, rule, delegate, ids);
      }
    }
  }

  lemma TransactionPayer(tx: Option<Transaction>, passphrase: string, t: TransferSpec, rule: Option<int>)
    ensures ValidateTransaction(tx, passphrase, t, rule).TxValid? ==>
      ValidateTransaction(tx, passphrase, t, rule).payer == t.from
  {
  }

  // ---- The decision ----

  datatype ObservedRule = ObservedRule(ruleId: int, token: string, recipient: string)

  /** What looking up the recipient policy's installed rule may answer. */
  datatype RuleReply = Installed(rule: ObservedRule) | NotInstalled | LookupThrew

  datatype Request = Request(
    version: int,
    tx: Option<Transaction>,
    req: Requirements,
    events: seq<DiagnosticEvent>,
    manifest: PolicyManifest,
    payer: string,
    hashes: PolicyEvents.WasmHashes,
    lookUp: (u32, string) -> RuleReply)

  datatype Decision =
    | Approved(payer: string, delegate: string, ruleId: u32)
    | Refused(named: Option<string>, reason: VerifyReason)
    | Threw

  function MapEventReason(reason: PolicyEvents.EventReason): VerifyReason {
    match reason
    case PolicyUnapproved => PolicyEventUnapproved
    case PolicyContextMismatch => PolicyEventContextMismatch
    case ManifestMismatch => PolicyManifestMismatch
    case PolicyMalformed => PolicyEventMalformed
    case PolicyDuplicate => PolicyEventMalformed
    case _ => UnexpectedBalanceChanges
  }

  const PUBLIC_PASSPHRASE := "Public Global Stellar Network ; September 2015"
  const TESTNET_PASSPHRASE := "Test SDF Network ; September 2015"

  function Passphrase(network: string): string {
    if network == "stellar:pubnet" then PUBLIC_PASSPHRASE else TESTNET_PASSPHRASE
  }

  predicate PositiveAmount(amount: string) {
    amount != [] && AllDigits(amount) && Parse(amount) > 0
  }

  function SpecOf(r: Request): TransferSpec
    requires PositiveAmount(r.req.amount)
  {
    TransferSpec(r.req.asset, r.payer, r.req.payTo, Parse(r.req.amount))
  }

  function ExpectedOf(t: TransferSpec, ruleId: u32): PolicyEvents.Expected {
    PolicyEvents.Expected(t.token, t.from, t.to, t.amount, ruleId)
  }

  predicate PayerPinned(r: Request) {
    Truthy(r.manifest.smartAccountWasmHash) ==>
      PolicyEvents.HashObserved(r.hashes, r.payer, r.manifest.smartAccountWasmHash.value)
  }

  predicate RecipientPolicyPinned(r: Request) {
    && r.manifest.recipientPolicy.Some?
    && PolicyEvents.HashObserved(
         r.hashes, r.manifest.recipientPolicy.value.contractId, r.manifest.recipientPolicy.value.expectedWasmHash)
  }

  /** Without a pinned rule the selected one must be installed with the payment's token and recipient. */
  function DynamicError(r: Request, ruleId: u32): Option<Decision> {
    var mismatch := Some(Refused(Some(r.payer), PolicyManifestMismatch));
    if r.manifest.expectedRuleId.Some? then None
    else if !RecipientPolicyPinned(r) then mismatch
    else
      match r.lookUp(ruleId, r.payer)
      case LookupThrew => Some(Threw)
      case NotInstalled => mismatch
      case Installed(rule) => if rule == ObservedRule(ruleId, r.req.asset, r.req.payTo) then None else mismatch
  }

  predicate RuleAllowed(m: PolicyManifest, ruleId: u32) {
    m.allowedRuleIds.Some? ==> ruleId in m.allowedRuleIds.value
  }

  function DecideEvents(r: Request, delegate: string, ruleId: u32): Decision
    requires PositiveAmount(r.req.amount)
  {
    match PolicyEvents.Verdict(r.events, ExpectedOf(SpecOf(r), ruleId), r.manifest, r.hashes)
    case Rejected(reason) =>
      if reason.ThrewOnNullContext? then Threw else Refused(Some(r.payer), MapEventReason(reason))
    case Accepted(_) => Approved(r.payer, delegate, ruleId)
  }

  function VerifyPolicyAwarePayment(r: Request): Decision {
    if r.version != 2 then Refused(None, InvalidVersion)
    else if r.req.scheme != "exact" then Refused(None, InvalidScheme)
    else if r.req.network != r.manifest.network then Refused(None, InvalidNetwork)
    else if !PositiveAmount(r.req.amount) then Refused(None, WrongAmount)
    else if Truthy(r.manifest.smartAccount) && r.manifest.smartAccount.value != r.payer
    then Refused(None, PolicyManifestMismatch)
    else if !PayerPinned(r) then Refused(Some(r.payer), PolicyManifestMismatch)
    else
      match ValidateTransaction(r.tx, Passphrase(r.req.network), SpecOf(r), r.manifest.expectedRuleId)
      case TxThrew => Threw
      case TxInvalid(_) => Refused(Some(r.payer), AuthStructure)
      case TxValid(_, delegate, ruleId) =>
        if !RuleAllowed(r.manifest, ruleId) then Refused(Some(r.payer), PolicyManifestMismatch)
        else
          match DynamicError(r, ruleId)
          case Some(decision) => decision
          case None => DecideEvents(r, delegate, ruleId)
  }

  // ---- What approval means ----

  predicate RequestFits(r: Request) {
    && r.version == 2 && r.req.scheme == "exact" && r.req.network == r.manifest.network
    && PositiveAmount(r.req.amount)
    && (r.manifest.smartAccount == None || r.manifest.smartAccount == Some("")
        || r.manifest.smartAccount == Some(r.payer))
    && (r.manifest.smartAccountWasmHash == None || r.manifest.smartAccountWasmHash == Some("")
        || PolicyEvents.RunsPinned(r.hashes, r.payer, r.manifest.smartAccountWasmHash.value))
  }

  /** The phrase that the network's transactions and authorizations are bound to. */
  predicate NetworkPhrase(network: string, phrase: string) {
    || (network == "stellar:pubnet" && phrase == "Public Global Stellar Network ; September 2015")
    || (network != "stellar:pubnet" && phrase == "Test SDF Network ; September 2015")
  }

  /** The rule at the head of the signed selection is the manifest's, or the one installed for this payment. */
  predicate RuleFits(r: Request, ids: seq<u32>)
    requires ids != []
  {
    && (r.manifest.expectedRuleId.Some? ==> ids == [r.manifest.expectedRuleId.value])
    && (r.manifest.allowedRuleIds == None || ids[0] in r.manifest.allowedRuleIds.value)
    && (r.manifest.expectedRuleId.None? ==>
          && r.manifest.recipientPolicy.Some?
          && PolicyEvents.RunsPinned(r.hashes, r.manifest.recipientPolicy.value.contractId,
                                     r.manifest.recipientPolicy.value.expectedWasmHash)
          && r.lookUp(ids[0], r.payer) == Installed(ObservedRule(ids[0], r.req.asset, r.req.payTo)))
  }

  /** Transaction, authorization, rule and events speak of one payment. */
  ghost predicate AllAgree(r: Request, delegate: string, ids: seq<u32>) {
    && RequestFits(r)
    && (exists phrase ::
          NetworkPhrase(r.req.network, phrase) && TransactionPays(r.tx, phrase, SpecOf(r), delegate, ids))
    && ids != []
    && RuleFits(r, ids)
    && PolicyEventTheorems.Acceptable(multiset(r.events), ExpectedOf(SpecOf(r), ids[0]), r.manifest, r.hashes)
  }

  lemma OnePhrase(network: string, phrase: string)
    ensures NetworkPhrase(network, phrase) <==> phrase == Passphrase(network)
  {
  }

  lemma AgreeUnderPassphrase(r: Request, delegate: string, ids: seq<u32>)
    requires RequestFits(r)
    ensures AllAgree(r, delegate, ids) <==>
      && TransactionPays(r.tx, Passphrase(r.req.network), SpecOf(r), delegate, ids) && ids != [] && RuleFits(r, ids)
      && PolicyEventTheorems.Acceptable(multiset(r.events), ExpectedOf(SpecOf(r), ids[0]), r.manifest, r.hashes)
  {
    OnePhrase(r.req.network, Passphrase(r.req.network));
  }

  /** What is checked before the transaction. */
  lemma RequestPassesIff(r: Request)
    ensures RequestFits(r) <==>
      && r.version == 2 && r.req.scheme == "exact" && r.req.network == r.manifest.network
      && PositiveAmount(r.req.amount)
      && !(Truthy(r.manifest.smartAccount) && r.manifest.smartAccount.value != r.payer)
      && PayerPinned(r)
  {
  }

  /** What is checked of the rule at the head of the selection. */
  lemma RulePassesIff(r: Request, ids: seq<u32>)
    requires ids != []
    ensures RuleFits(r, ids) <==>
      && (r.manifest.expectedRuleId.Some? ==> ids == [r.manifest.expectedRuleId.value])
      && RuleAllowed(r.manifest, ids[0]) && DynamicError(r, ids[0]).None?
  {
  }

  lemma AgreedIsApproved(r: Request, delegate: string, ids: seq<u32>)
    requires AllAgree(r, delegate, ids)
    ensures VerifyPolicyAwarePayment(r) == Approved(r.payer, delegate, ids[0])
  {
    RequestPassesIff(r);
    AgreeUnderPassphrase(r, delegate, ids);
    RulePassesIff(r, ids);
    TransactionValidIff(
      r.tx, Passphrase(r.req.network), SpecOf(r), r.manifest.expectedRuleId, delegate, ids[0]);
    PolicyEventTheorems.VerdictIffAcceptable(r.events, ExpectedOf(SpecOf(r), ids[0]), r.manifest, r.hashes);
  }

  /** The stages an approved request has passed. */
  lemma ApprovedPassed(r: Request, delegate: string, ruleId: u32)
    requires VerifyPolicyAwarePayment(r) == Approved(r.payer, delegate, ruleId)
    ensures RequestFits(r)
    ensures ValidateTransaction(r.tx, Passphrase(r.req.network), SpecOf(r), r.manifest.expectedRuleId)
            == TxValid(r.payer, delegate, ruleId)
    ensures RuleAllowed(r.manifest, ruleId) && DynamicError(r, ruleId).None?
    ensures PolicyEvents.Verdict(r.events, ExpectedOf(SpecOf(r), ruleId), r.manifest, r.hashes).Accepted?
  {
    RequestPassesIff(r);
    TransactionPayer(r.tx, Passphrase(r.req.network), SpecOf(r), r.manifest.expectedRuleId);
  }

  lemma ApprovedAgrees(r: Request, delegate: string, ruleId: u32) returns (ids: seq<u32>)
    requires VerifyPolicyAwarePayment(r) == Approved(r.payer, delegate, ruleId)
    ensures AllAgree(r, delegate, ids) && ids[0] == ruleId
  {
    ApprovedPassed(r, delegate, ruleId);
    TransactionValidIff(
      r.tx, Passphrase(r.req.network), SpecOf(r), r.manifest.expectedRuleId, delegate, ruleId);
    PolicyEventTheorems.VerdictIffAcceptable(r.events, ExpectedOf(SpecOf(r), ruleId), r.manifest, r.hashes);
    ids :| TransactionPays(r.tx, Passphrase(r.req.network), SpecOf(r), delegate, ids) && ids[0] == ruleId
           && (r.manifest.expectedRuleId.Some? ==> ids == [r.manifest.expectedRuleId.value]);
    RulePassesIff(r, ids);
    AgreeUnderPassphrase(r, delegate, ids);
  }

  /** A payment is approved exactly when everything it carries agrees on it. */
  lemma ApprovedIffAllAgree(r: Request, delegate: string, ruleId: u32)
    ensures VerifyPolicyAwarePayment(r) == Approved(r.payer, delegate, ruleId)
      <==> exists ids: seq<u32> :: AllAgree(r, delegate, ids) && ids[0] == ruleId
    ensures VerifyPolicyAwarePayment(r).Approved? ==> VerifyPolicyAwarePayment(r).payer == r.payer
  {
    if VerifyPolicyAwarePayment(r) == Approved(r.payer, delegate, ruleId) {
      var ids := ApprovedAgrees(r, delegate, ruleId);
    }
    forall ids: seq<u32> | AllAgree(r, delegate, ids) && ids[0] == ruleId
      ensures VerifyPolicyAwarePayment(r) == Approved(r.payer, delegate, ruleId)
    {
      AgreedIsApproved(r, delegate, ids);
    }
    if PositiveAmount(r.req.amount) {
      TransactionPayer(r.tx, Passphrase(r.req.network), SpecOf(r), r.manifest.expectedRuleId);
    }
  }

  // ---- One payment everywhere ----

  /** A call of the token's transfer from the payer to the recipient. */
  predicate CallPays(contract: string, fn: string, args: seq<ScVal>, t: TransferSpec) {
    && contract == t.token && fn == "transfer"
    && |args| == 3 && args[0] == Address(t.from) && args[1] == Address(t.to) && ToNative(args[2]) == NBig(t.amount)
  }

  /** A spending-limit event reporting this payment: payer, amount, rule and the embedded call. */
  ghost predicate ReportsPayment(e: DiagnosticEvent, t: TransferSpec, ruleId: u32) {
    && e.Event? && e.topics == [Symbol("spending_limit_enforced"), Address(t.from)]
    && e.data.Map?
    && exists amount, context, total ::
         && PolicyEvents.FieldsOf(e.data.entries) == Some(SpendingFields(amount, context, U32(ruleId), total))
         && amount.I128? && total.I128?
         && ToNative(amount) == NBig(t.amount) && ToNative(total).big >= t.amount
         && EmbedsCall(ToNative(context), t)
  }

  function SpendingFields(amount: ScVal, context: ScVal, ruleId: ScVal, total: ScVal): map<string, ScVal> {
    map["amount" := amount, "context" := context, "context_rule_id" := ruleId, "total_spent_in_period" := total]
  }

  predicate EmbedsCall(context: Native, t: TransferSpec) {
    && context.NArray? && |context.items| == 2 && context.items[0] == NString("Contract")
    && Property(context.items[1], "contract") == Some(NString(t.token))
    && Property(context.items[1], "fn_name") == Some(NString("transfer"))
    && Property(context.items[1], "args") == Some(NArray([NString(t.from), NString(t.to), NBig(t.amount)]))
  }

  /** The spending-limit check passes exactly on events that report the payment. */
  lemma PassesIffReports(e: PolicyEvents.ContractEventRecord, t: TransferSpec, ruleId: u32)
    ensures PolicyEvents.SpendingLimitError(e, ExpectedOf(t, ruleId)).None? <==> ReportsPayment(e, t, ruleId)
  {
    var x := ExpectedOf(t, ruleId);
    if PolicyEvents.SpendingLimitError(e, x).None? {
      var f := PolicyEvents.FieldsOf(e.data.entries).value;
      assert e.topics == [e.topics[0], e.topics[1]];
      assert f == SpendingFields(f["amount"], f["context"], f["context_rule_id"], f["total_spent_in_period"]);
    }
  }

  ghost predicate PayerRootPays(tx: Option<Transaction>, t: TransferSpec) {
    && tx.Some? && |tx.value.operations| == 1 && tx.value.operations[0].InvokeHostFunction?
    && |tx.value.operations[0].auth| == 2
    && var root := PayerEntry(tx.value.operations[0].auth, t).root;
    && root.ContractCall? && CallPays(root.contract, root.fn, root.args, t)
  }

  ghost predicate TransactionCalls(tx: Option<Transaction>, t: TransferSpec) {
    && tx.Some? && |tx.value.operations| == 1 && tx.value.operations[0].InvokeHostFunction?
    && tx.value.operations[0].func.InvokeContract?
    && var call := tx.value.operations[0].func;
    && CallPays(call.contract, call.fn, call.args, t)
  }

  predicate IsTransferEvent(e: DiagnosticEvent) {
    PolicyEvents.Parsable(e) && PolicyEvents.TransferNamed(e)
  }

  /** The stream holds one transfer event, once, and it reports the payment. */
  ghost predicate OnlyTransferPays(events: seq<DiagnosticEvent>, t: TransferSpec) {
    exists e ::
      && e in events && multiset(events)[e] == 1 && IsTransferEvent(e)
      && PolicyEvents.ParseTransfer(e) == Some(PolicyEvents.TransferRecord(t.token, t.from, t.to, t.amount))
      && forall f :: f in events && IsTransferEvent(f) ==> f == e
  }

  ghost predicate EveryPolicyEventReports(events: seq<DiagnosticEvent>, t: TransferSpec, ruleId: u32) {
    forall e :: e in events && PolicyEventTheorems.PolicyEvent(e) ==> ReportsPayment(e, t, ruleId)
  }

  lemma AcceptableReports(
    events: seq<DiagnosticEvent>, t: TransferSpec, ruleId: u32, m: PolicyManifest, hashes: PolicyEvents.WasmHashes)
    requires PolicyEventTheorems.Acceptable(multiset(events), ExpectedOf(t, ruleId), m, hashes)
    ensures OnlyTransferPays(events, t) && EveryPolicyEventReports(events, t, ruleId)
  {
    var x := ExpectedOf(t, ruleId);
    var sole :| PolicyEventTheorems.SoleTransfer(multiset(events), sole, x);
    assert sole in events && IsTransferEvent(sole);
    assert forall f :: f in events ==> f in multiset(events);
    forall e | e in events && PolicyEventTheorems.PolicyEvent(e) ensures ReportsPayment(e, t, ruleId) {
      assert PolicyEventTheorems.PolicyApproved(e, x, m, hashes);
      PassesIffReports(e, t, ruleId);
    }
  }

  /**
    When a payment is approved, the transaction's call, the payer's signed root, the one transfer event and the
    context inside every policy event agree on token, payer, recipient and a positive amount; and the approved rule
    heads the signed selection, is the rule of every policy event, and is the pinned or the installed one.
   */
  lemma ApprovedSpeaksOfOnePayment(r: Request)
    requires VerifyPolicyAwarePayment(r).Approved?
    ensures PositiveAmount(r.req.amount)
    ensures
      var t, ruleId, delegate := SpecOf(r), VerifyPolicyAwarePayment(r).ruleId, VerifyPolicyAwarePayment(r).delegate;
      && t.amount > 0
      && TransactionCalls(r.tx, t)
      && PayerRootPays(r.tx, t)
      && OnlyTransferPays(r.events, t)
      && EveryPolicyEventReports(r.events, t, ruleId)
      && (exists phrase, ids: seq<u32> :: NetworkPhrase(r.req.network, phrase)
            && TransactionPays(r.tx, phrase, t, delegate, ids) && ids[0] == ruleId)
      && (r.manifest.expectedRuleId.Some? ==> ruleId == r.manifest.expectedRuleId.value)
      && (r.manifest.expectedRuleId.None? ==>
            r.lookUp(ruleId, t.from) == Installed(ObservedRule(ruleId, t.token, t.to)))
  {
    var d := VerifyPolicyAwarePayment(r);
    ApprovedIffAllAgree(r, d.delegate, d.ruleId);
    var ids: seq<u32> :| AllAgree(r, d.delegate, ids) && ids[0] == d.ruleId;
    AcceptableReports(r.events, SpecOf(r), d.ruleId, r.manifest, r.hashes);
    var phrase :| NetworkPhrase(r.req.network, phrase) && TransactionPays(r.tx, phrase, SpecOf(r), d.delegate, ids);
    PaysCalls(r.tx, phrase, SpecOf(r), d.delegate, ids);
  }

  lemma PaysCalls(
    tx: Option<Transaction>, passphrase: string, t: TransferSpec, delegate: string, ids: seq<u32>)
    requires TransactionPays(tx, passphrase, t, delegate, ids)
    ensures TransactionCalls(tx, t) && PayerRootPays(tx, t)
  {
  }

  /**
    A transaction is approved for one payment only: two approvals of the same transaction, under any requirements,
    manifests, events and replies, are for the same token, payer, recipient and amount, on the same network, and
    name the same delegate and rule.
   */
  lemma OneTransactionOnePayment(r: Request, s: Request)
    requires r.tx == s.tx
    requires VerifyPolicyAwarePayment(r).Approved? && VerifyPolicyAwarePayment(s).Approved?
    ensures PositiveAmount(r.req.amount) && PositiveAmount(s.req.amount)
    ensures SpecOf(r) == SpecOf(s)
    ensures r.req.network == "stellar:pubnet" <==> s.req.network == "stellar:pubnet"
    ensures VerifyPolicyAwarePayment(r) == VerifyPolicyAwarePayment(s)
  {
    var d, e := VerifyPolicyAwarePayment(r), VerifyPolicyAwarePayment(s);
    ApprovedIffAllAgree(r, d.delegate, d.ruleId);
    ApprovedIffAllAgree(s, e.delegate, e.ruleId);
    var ids: seq<u32> :| AllAgree(r, d.delegate, ids) && ids[0] == d.ruleId;
    var others: seq<u32> :| AllAgree(s, e.delegate, others) && others[0] == e.ruleId;
    var phrase :| NetworkPhrase(r.req.network, phrase) && TransactionPays(r.tx, phrase, SpecOf(r), d.delegate, ids);
    var other :| NetworkPhrase(s.req.network, other) && TransactionPays(s.tx, other, SpecOf(s), e.delegate, others);
    PaysOnce(r.tx, phrase, SpecOf(r), d.delegate, ids, other, SpecOf(s), e.delegate, others);
    PhrasesDiffer(r.req.network, s.req.network, phrase);
  }

  lemma PhrasesDiffer(network: string, other: string, phrase: string)
    requires NetworkPhrase(network, phrase) && NetworkPhrase(other, phrase)
    ensures network == "stellar:pubnet" <==> other == "stellar:pubnet"
  {
    assert |"Public Global Stellar Network ; September 2015"| > |"Test SDF Network ; September 2015"|;
  }

  lemma PaysOnce(
    tx: Option<Transaction>,
    p: string, t: TransferSpec, delegate: string, ids: seq<u32>,
    q: string, u: TransferSpec, other: string, others: seq<u32>)
    requires TransactionPays(tx, p, t, delegate, ids) && TransactionPays(tx, q, u, other, others)
    ensures p == q && t == u && delegate == other && ids == others
  {
  }
}
