/**
  A payment with an amount signed as u64: the facilitator approves it under a production manifest in dynamic mode,
  and the recipient policy installed for it refuses it.
 */
module AmountTypeGap {
  import opened Wrappers
  import opened Decimal
  import opened X402
  import opened Soroban
  import opened Manifest
  import opened Authorization
  import PolicyEvents
  import PolicyEventTheorems
  import PolicyVerify
  import RecipientPolicy

  /** The deployed contracts and the code hash all of them are pinned to. */
  datatype Deployment = Deployment(spendingLimit: string, recipientPolicy: string, wasmHash: string)

  ghost predicate ValidDeployment(d: Deployment, t: TransferSpec) {
    && IsContractAddress(d.spendingLimit) && IsContractAddress(d.recipientPolicy) && IsHex64(d.wasmHash)
    && IsContractAddress(t.from)
    && 0 < t.amount < TWO_TO_THE_63
  }

  function ManifestOf(d: Deployment, t: TransferSpec): PolicyManifest {
    PolicyManifest("u64", "stellar:testnet", Some(t.from), None, None, None,
                   Some(RecipientBinding(d.recipientPolicy, d.wasmHash)),
                   [Adapter(OZ_SPENDING_LIMIT, d.spendingLimit, Some(d.wasmHash), true)])
  }

  function Args(t: TransferSpec): seq<ScVal>
    requires 0 <= t.amount < TWO_TO_THE_63
  {
    [Address(t.from), Address(t.to), U64(t.amount)]
  }

  /** The payer's entry and the delegate's, signed as the builder does but over a u64 amount. */
  function Entries(t: TransferSpec, delegate: string, rule: u32): seq<AuthEntry>
    requires 0 <= t.amount < TWO_TO_THE_63
  {
    var recorded := AuthEntry(
      AddressCredentials(t.from, 0, 0, Void), ContractCall(t.token, "transfer", Args(t), []));
    var built := BuildEntries(recorded, delegate, [rule], 100, PolicyVerify.TESTNET_PASSPHRASE, 0, []).value;
    [built.smartAccount, built.delegated]
  }

  function TransferEvent(t: TransferSpec): DiagnosticEvent
    requires 0 <= t.amount < TWO_TO_THE_63
  {
    Event(ContractEvent, true, Some(t.token), [Symbol("transfer"), Address(t.from), Address(t.to)], I128(0, t.amount))
  }

  function ContextValue(t: TransferSpec): ScVal
    requires 0 <= t.amount < TWO_TO_THE_63
  {
    Vec([Symbol("Contract"),
         Map([MapEntry(Symbol("contract"), Address(t.token)), MapEntry(Symbol("fn_name"), Symbol("transfer")),
              MapEntry(Symbol("args"), Vec(Args(t)))])])
  }

  function LimitEvent(d: Deployment, t: TransferSpec, rule: u32): DiagnosticEvent
    requires 0 <= t.amount < TWO_TO_THE_63
  {
    Event(ContractEvent, true, Some(d.spendingLimit), [Symbol("spending_limit_enforced"), Address(t.from)],
          Map([MapEntry(Symbol("amount"), I128(0, t.amount)),
               MapEntry(Symbol("context"), ContextValue(t)),
               MapEntry(Symbol("context_rule_id"), U32(rule)),
               MapEntry(Symbol("total_spent_in_period"), I128(0, t.amount))]))
  }

  function InstalledFor(t: TransferSpec, rule: u32): RecipientPolicy.Storage {
    map[(t.from, rule) := RecipientPolicy.PolicyParams(t.to, t.token)]
  }

  function LookUpIn(s: RecipientPolicy.Storage): (u32, string) -> PolicyVerify.RuleReply {
    (rule: u32, account: string) =>
      if (account, rule) in s
      then PolicyVerify.Installed(
             PolicyVerify.ObservedRule(rule, s[(account, rule)].token, s[(account, rule)].recipient))
      else PolicyVerify.NotInstalled
  }

  function U64Request(d: Deployment, t: TransferSpec, delegate: string, rule: u32): PolicyVerify.Request
    requires 0 <= t.amount < TWO_TO_THE_63
  {
    var operation := InvokeHostFunction(None, InvokeContract(t.token, "transfer", Args(t)), Entries(t, delegate, rule));
    PolicyVerify.Request(
      2, Some(Transaction("G", "100", 0, [operation])),
      Requirements("exact", "stellar:testnet", Print(t.amount), t.to, 60, t.token, None, true),
      [TransferEvent(t), LimitEvent(d, t, rule)],
      ManifestOf(d, t), t.from,
      map[d.spendingLimit := d.wasmHash, d.recipientPolicy := d.wasmHash],
      LookUpIn(InstalledFor(t, rule)))
  }

  lemma ManifestIsProduction(d: Deployment, t: TransferSpec)
    requires ValidDeployment(d, t)
    ensures Production(ManifestOf(d, t))
  {
    assert ManifestOf(d, t).id[0] == 'u';
  }

  lemma AmountReads(t: TransferSpec)
    requires 0 < t.amount < TWO_TO_THE_63
    ensures PolicyVerify.PositiveAmount(Print(t.amount)) && Parse(Print(t.amount)) == t.amount
  {
    ParsePrint(t.amount);
  }

  lemma EntriesEndorse(t: TransferSpec, delegate: string, rule: u32)
    requires 0 < t.amount < TWO_TO_THE_63
    ensures
      var entries := Entries(t, delegate, rule);
      Endorses(entries[0], entries[1], t, PolicyVerify.TESTNET_PASSPHRASE, delegate, [rule])
  {
    ReadsWhatIsBuilt(AuthPayloadScVal(delegate, [rule]), delegate, [rule]);
  }

  lemma FieldsOfEvent(d: Deployment, t: TransferSpec, rule: u32)
    requires 0 <= t.amount < TWO_TO_THE_63
    ensures PolicyEvents.FieldsOf(LimitEvent(d, t, rule).data.entries) == Some(
              PolicyVerify.SpendingFields(I128(0, t.amount), ContextValue(t), U32(rule), I128(0, t.amount)))
  {
    var entries := LimitEvent(d, t, rule).data.entries;
    assert entries[..3][..2] == entries[..2] && entries[..2][..1] == entries[..1] && entries[..1][..0] == [];
    assert PolicyEvents.FieldsOf(entries[..1][..0]) == Some(map[]);
    assert PolicyEvents.FieldsOf(entries[..1]) == Some(map["amount" := I128(0, t.amount)]);
    assert PolicyEvents.FieldsOf(entries[..2]) == Some(
      map["amount" := I128(0, t.amount), "context" := ContextValue(t)]);
    assert PolicyEvents.FieldsOf(entries[..3]) == Some(
      map["amount" := I128(0, t.amount), "context" := ContextValue(t), "context_rule_id" := U32(rule)]);
    assert entries[..4] == entries;
  }

  lemma NativesOfThree(a: ScVal, b: ScVal, c: ScVal)
    ensures ToNatives([a, b, c]) == [ToNative(a), ToNative(b), ToNative(c)]
  {
    assert [a, b, c][1..] == [b, c] && [b, c][1..] == [c] && [c][1..] == [];
    assert ToNatives([c]) == [ToNative(c)];
    assert ToNatives([b, c]) == [ToNative(b), ToNative(c)];
  }

  lemma FieldsOfThree(a: MapEntry, b: MapEntry, c: MapEntry)
    ensures ToFields([a, b, c]) == [ToField(a), ToField(b), ToField(c)]
  {
    assert [a, b, c][1..] == [b, c] && [b, c][1..] == [c] && [c][1..] == [];
    assert ToFields([c]) == [ToField(c)];
    assert ToFields([b, c]) == [ToField(b), ToField(c)];
  }

  lemma PropertyOfThree(a: (Native, Native), b: (Native, Native), c: (Native, Native), name: string)
    ensures LastField([a, b, c], name) ==
      if c.0 == NString(name) then Some(c.1)
      else if b.0 == NString(name) then Some(b.1)
      else if a.0 == NString(name) then Some(a.1)
      else None
  {
    assert [a, b, c][..2] == [a, b] && [a, b][..1] == [a] && [a][..0] == [];
    assert LastField([a], name) == if a.0 == NString(name) then Some(a.1) else None;
    assert LastField([a, b], name) == if b.0 == NString(name) then Some(b.1) else LastField([a], name);
  }

  lemma ContextEmbeds(t: TransferSpec)
    requires 0 <= t.amount < TWO_TO_THE_63
    ensures PolicyVerify.EmbedsCall(ToNative(ContextValue(t)), t)
  {
    var entries := ContextValue(t).items[1].entries;
    assert entries == [entries[0], entries[1], entries[2]];
    FieldsOfThree(entries[0], entries[1], entries[2]);
    NativesOfThree(Address(t.from), Address(t.to), U64(t.amount));
    ToNativesAt(ContextValue(t).items, 0);
    ToNativesAt(ContextValue(t).items, 1);
    var call := ToNative(ContextValue(t).items[1]);
    var a, b, c := ToField(entries[0]), ToField(entries[1]), ToField(entries[2]);
    assert call == NObject([a, b, c]);
    PropertyOfThree(a, b, c, "contract");
    PropertyOfThree(a, b, c, "fn_name");
    PropertyOfThree(a, b, c, "args");
  }

  lemma EventsAcceptable(d: Deployment, t: TransferSpec, rule: u32)
    requires ValidDeployment(d, t)
    ensures PolicyEventTheorems.Acceptable(
              multiset([TransferEvent(t), LimitEvent(d, t, rule)]), PolicyVerify.ExpectedOf(t, rule), ManifestOf(d, t),
              map[d.spendingLimit := d.wasmHash, d.recipientPolicy := d.wasmHash])
  {
    FieldsOfEvent(d, t, rule);
    ContextEmbeds(t);
    PolicyVerify.PassesIffReports(LimitEvent(d, t, rule), t, rule);
    assert PolicyVerify.ReportsPayment(LimitEvent(d, t, rule), t, rule);
    PolicyEventTheorems.PairIsAcceptable(
      TransferEvent(t), LimitEvent(d, t, rule), PolicyVerify.ExpectedOf(t, rule), ManifestOf(d, t),
      map[d.spendingLimit := d.wasmHash, d.recipientPolicy := d.wasmHash]);
    assert multiset([TransferEvent(t), LimitEvent(d, t, rule)]) == multiset{TransferEvent(t), LimitEvent(d, t, rule)};
  }

  lemma TransactionOfRequestPays(d: Deployment, t: TransferSpec, delegate: string, rule: u32)
    requires ValidDeployment(d, t)
    ensures PolicyVerify.TransactionPays(
              U64Request(d, t, delegate, rule).tx, PolicyVerify.TESTNET_PASSPHRASE, t, delegate, [rule])
    ensures PolicyVerify.NetworkPhrase(U64Request(d, t, delegate, rule).req.network, PolicyVerify.TESTNET_PASSPHRASE)
  {
    EntriesEndorse(t, delegate, rule);
    assert |"stellar:testnet"| != |"stellar:pubnet"|;
  }

  lemma RequestAgrees(d: Deployment, t: TransferSpec, delegate: string, rule: u32)
    requires ValidDeployment(d, t)
    ensures PolicyVerify.AllAgree(U64Request(d, t, delegate, rule), delegate, [rule])
  {
    AmountReads(t);
    assert PolicyVerify.SpecOf(U64Request(d, t, delegate, rule)) == t;
    TransactionOfRequestPays(d, t, delegate, rule);
    EventsAcceptable(d, t, rule);
  }

  lemma PolicyRefuses(t: TransferSpec, delegate: string, rule: u32, signers: nat)
    requires 0 < t.amount < TWO_TO_THE_63 && signers > 0
    ensures RecipientPolicy.ErrorOf(
              InstalledFor(t, rule),
              RecipientPolicy.Enforce(true, (t.from, rule), signers,
                                      RecipientPolicy.ContextOf(Entries(t, delegate, rule)[0].root)))
      == Some(RecipientPolicy.NotAllowed)
  {
    var context := RecipientPolicy.ContextOf(Entries(t, delegate, rule)[0].root);
    assert !RecipientPolicy.ValidateTransfer(context, t.from, RecipientPolicy.PolicyParams(t.to, t.token));
  }

  /** For every payment and rule there is such a request: approved, and refused by the policy installed for it. */
  lemma ApprovedU64IsRefused(d: Deployment, t: TransferSpec, delegate: string, rule: u32, signers: nat)
    requires ValidDeployment(d, t) && signers > 0
    ensures Production(ManifestOf(d, t)) && ManifestOf(d, t).expectedRuleId.None?
    ensures PolicyVerify.VerifyPolicyAwarePayment(U64Request(d, t, delegate, rule))
      == PolicyVerify.Approved(t.from, delegate, rule)
    ensures RecipientPolicy.Reads(U64Request(d, t, delegate, rule).lookUp, InstalledFor(t, rule))
    ensures RecipientPolicy.ErrorOf(
              InstalledFor(t, rule),
              RecipientPolicy.Enforce(true, (t.from, rule), signers,
                                      RecipientPolicy.ContextOf(Entries(t, delegate, rule)[0].root)))
      == Some(RecipientPolicy.NotAllowed)
  {
    ManifestIsProduction(d, t);
    PolicyRefuses(t, delegate, rule, signers);
    RequestAgrees(d, t, delegate, rule);
    PolicyVerify.ApprovedIffAllAgree(U64Request(d, t, delegate, rule), delegate, rule);
  }
}
