/** Building and validating the two authorization entries of a delegated smart-account payment. */
module Authorization {
  import opened Wrappers
  import opened Soroban

  datatype TransferSpec = TransferSpec(token: string, from: string, to: string, amount: int)

  // ---- Building ----

  datatype BuildError = AmountOutOfRange | NoRuleIds | NoAuthorizationPayload

  /** The payer's amount encoding: the low word only. */
  function I128Of(value: int): Result<ScVal, BuildError> {
    if 0 <= value < TWO_TO_THE_64 then Ok(I128(0, value)) else Err(AmountOutOfRange)
  }

  function TransferInvocation(spec: TransferSpec): Result<Invocation, BuildError> {
    var amount :- I128Of(spec.amount);
    Ok(ContractCall(spec.token, "transfer", [Address(spec.from), Address(spec.to), amount], []))
  }

  /** A transfer can be written exactly for amounts of at most 64 bits, and its amount reads back. */
  lemma WritableIff64Bits(spec: TransferSpec)
    ensures TransferInvocation(spec).Ok? <==> 0 <= spec.amount < TWO_TO_THE_64
    ensures TransferInvocation(spec).Ok? ==>
      var call := TransferInvocation(spec).value;
      && call.ContractCall? && call.contract == spec.token && call.fn == "transfer" && call.subInvocations == []
      && |call.args| == 3 && call.args[0] == Address(spec.from) && call.args[1] == Address(spec.to)
      && call.args[2].I128? && ToNative(call.args[2]) == NBig(spec.amount)
  {
  }

  function RuleIdItems(ids: seq<u32>): (r: seq<ScVal>)
    ensures |r| == |ids|
    ensures forall i :: 0 <= i < |r| ==> r[i] == U32(ids[i])
  {
    if ids == [] then [] else [U32(ids[0])] + RuleIdItems(ids[1..])
  }

  function SignersScVal(delegate: string): ScVal {
    Map([MapEntry(Vec([Symbol("Delegated"), Address(delegate)]), Bytes(Raw([])))])
  }

  function AuthPayloadScVal(delegate: string, ids: seq<u32>): ScVal {
    Map([MapEntry(Symbol("context_rule_ids"), Vec(RuleIdItems(ids))),
         MapEntry(Symbol("signers"), SignersScVal(delegate))])
  }

  datatype BuiltEntries = BuiltEntries(smartAccount: AuthEntry, delegated: AuthEntry, digest: Blob)

  /**
    Sign the payer's recorded entry with the rule selection, then have the delegate sign a call of the payer's
    __check_auth with the digest of that signature's payload and the selection.
   */
  function BuildEntries(
    entry: AuthEntry, delegate: string, ids: seq<u32>, validUntil: int, network: string,
    delegateNonce: int, delegateSignature: seq<ScVal>): Result<BuiltEntries, BuildError>
  {
    if !entry.credentials.AddressCredentials? then Err(NoAuthorizationPayload)
    else if ids == [] then Err(NoRuleIds)
    else
      var payer := entry.credentials.address;
      var digest := AuthDigest(SignaturePayload(network, entry.credentials.nonce, validUntil, entry.root), ids);
      var signed := AddressCredentials(payer, entry.credentials.nonce, validUntil, AuthPayloadScVal(delegate, ids));
      var call := ContractCall(payer, "__check_auth", [Bytes(digest)], []);
      Ok(BuiltEntries(
        AuthEntry(signed, entry.root),
        AuthEntry(AddressCredentials(delegate, delegateNonce, validUntil, Vec(delegateSignature)), call),
        digest))
  }

  // ---- Reading the payload ----

  datatype AuthPayload = AuthPayload(delegate: string, ruleIds: seq<u32>)

  /** The last value stored under a name, as a map filled entry by entry keeps it. */
  function Named(entries: seq<MapEntry>, name: string): Option<ScVal> {
    if entries == [] then None
    else if entries[|entries| - 1].key == Symbol(name) then Some(entries[|entries| - 1].val)
    else Named(entries[..|entries| - 1], name)
  }

  predicate AllU32(items: seq<ScVal>) {
    forall i :: 0 <= i < |items| ==> items[i].U32?
  }

  function Words(items: seq<ScVal>): (r: seq<u32>)
    requires AllU32(items)
    ensures |r| == |items|
    ensures forall i :: 0 <= i < |r| ==> r[i] == items[i].word
  {
    if items == [] then [] else [items[0].word] + Words(items[1..])
  }

  /** The one signer of a payload: a delegated address with an empty signature. */
  function SoleSigner(signers: ScVal): Option<string> {
    if !signers.Map? || |signers.entries| != 1 then None
    else
      var signer := signers.entries[0];
      if !signer.val.Bytes? || BlobLength(signer.val.blob) != 0 then None
      else if !signer.key.Vec? || |signer.key.items| != 2 then None
      else if signer.key.items[0] != Symbol("Delegated") || !signer.key.items[1].Address? then None
      else Some(signer.key.items[1].strkey)
  }

  function ReadPayload(signature: ScVal): Option<AuthPayload> {
    if !signature.Map? || |signature.entries| != 2 then None
    else if exists i :: 0 <= i < 2 && !signature.entries[i].key.Symbol? then None
    else
      var ids := Named(signature.entries, "context_rule_ids");
      var signers := Named(signature.entries, "signers");
      if ids.None? || signers.None? || !ids.value.Vec? || !AllU32(ids.value.items) || ids.value.items == [] then None
      else
        var delegate := SoleSigner(signers.value);
        if delegate.None? then None else Some(AuthPayload(delegate.value, Words(ids.value.items)))
  }

  /** The reader as written: one loop fills the names, another the rule IDs. */
  method ReadAuthPayload(signature: ScVal) returns (payload: Option<AuthPayload>)
    ensures payload == ReadPayload(signature)
  {
    if !signature.Map? || |signature.entries| != 2 {
      return None;
    }
    var byName: map<string, ScVal> := map[];
    var entries := signature.entries;
    for i := 0 to |entries|
      invariant forall j :: 0 <= j < i ==> entries[j].key.Symbol?
      invariant forall name :: Named(entries[..i], name) == if name in byName then Some(byName[name]) else None
    {
      if !entries[i].key.Symbol? {
        return None;
      }
      assert entries[..i + 1][..i] == entries[..i];
      byName := byName[entries[i].key.name := entries[i].val];
    }
    assert entries[..|entries|] == entries;
    assert forall name :: Named(entries, name) == if name in byName then Some(byName[name]) else None;
    if "context_rule_ids" !in byName || "signers" !in byName || !byName["context_rule_ids"].Vec? {
      return None;
    }
    var items := byName["context_rule_ids"].items;
    var ruleIds: seq<u32> := [];
    for i := 0 to |items|
      invariant |ruleIds| == i
      invariant forall j :: 0 <= j < i ==> items[j] == U32(ruleIds[j])
    {
      if !items[i].U32? {
        return None;
      }
      ruleIds := ruleIds + [items[i].word];
    }
    if ruleIds == [] {
      return None;
    }
    var delegate := SoleSigner(byName["signers"]);
    if delegate.None? {
      return None;
    }
    assert ruleIds == Words(items);
    payload := Some(AuthPayload(delegate.value, ruleIds));
  }

  // ---- Validating ----

  datatype AuthReason =
    | StructureInvalid
    | EntryUnsigned
    | PayerMismatch
    | DelegateMismatch
    | RuleSelectionInvalid
    | DigestMismatch
    | ExpirationMismatch
    | ThrewOnNonAddress

  datatype AuthVerdict = Valid(payer: string, delegate: string, ruleIds: seq<u32>) | Invalid(reason: AuthReason)

  function AddressOf(entry: AuthEntry): Option<string> {
    if entry.credentials.AddressCredentials? then Some(entry.credentials.address) else None
  }

  /** A contract call at the root with nothing below it. */
  predicate PlainCall(entry: AuthEntry) {
    entry.root.ContractCall? && entry.root.subInvocations == []
  }

  /** The call's arguments read as the transfer; Err where reading an argument as an address throws. */
  function ArgsMatch(args: seq<ScVal>, t: TransferSpec): Result<bool, AuthReason> {
    if |args| != 3 then Ok(false)
    else if !args[0].Address? then Err(ThrewOnNonAddress)
    else if args[0].strkey != t.from then Ok(false)
    else if !args[1].Address? then Err(ThrewOnNonAddress)
    else Ok(args[1].strkey == t.to && ToNative(args[2]) == NBig(t.amount))
  }

  function ValidatePair(
    payer: AuthEntry, delegated: AuthEntry, t: TransferSpec, network: string, expectedRule: Option<int>): AuthVerdict
    requires AddressOf(payer) == Some(t.from)
  {
    var p, d := payer.credentials, delegated.credentials;
    if !d.AddressCredentials? then Invalid(StructureInvalid)
    else if p.signature.Void? || d.signature.Void? then Invalid(EntryUnsigned)
    else if p.expiration != d.expiration then Invalid(ExpirationMismatch)
    else if !PlainCall(payer) || payer.root.fn != "transfer" then Invalid(StructureInvalid)
    else if payer.root.contract != t.token then Invalid(PayerMismatch)
    else
      match ArgsMatch(payer.root.args, t)
      case Err(thrown) => Invalid(thrown)
      case Ok(false) => Invalid(PayerMismatch)
      case Ok(true) =>
        match ReadPayload(p.signature)
        case None => Invalid(StructureInvalid)
        case Some(payload) =>
          if expectedRule.Some? && (|payload.ruleIds| != 1 || payload.ruleIds[0] != expectedRule.value)
          then Invalid(RuleSelectionInvalid)
          else if d.address != payload.delegate then Invalid(DelegateMismatch)
          else if !CallsCheckAuth(delegated, t.from) then Invalid(StructureInvalid)
          else if delegated.root.args[0].blob != ExpectedDigest(payer, network, payload.ruleIds)
          then Invalid(DigestMismatch)
          else Valid(t.from, payload.delegate, payload.ruleIds)
  }

  predicate CallsCheckAuth(entry: AuthEntry, payer: string) {
    && PlainCall(entry) && entry.root.contract == payer && entry.root.fn == "__check_auth"
    && |entry.root.args| == 1 && entry.root.args[0].Bytes? && BlobLength(entry.root.args[0].blob) == 32
  }

  /** The payer entry's own signature payload, bound to the rule selection. */
  function ExpectedDigest(payer: AuthEntry, network: string, ids: seq<u32>): Blob
    requires payer.credentials.AddressCredentials?
  {
    AuthDigest(SignaturePayload(network, payer.credentials.nonce, payer.credentials.expiration, payer.root), ids)
  }

  /** The first entry of the payer's address is the payer's; the other one is the delegate's. */
  function ValidateEntries(
    entries: seq<AuthEntry>, t: TransferSpec, network: string, expectedRule: Option<int>): AuthVerdict
  {
    if |entries| != 2 then Invalid(StructureInvalid)
    else if AddressOf(entries[0]) == Some(t.from) then ValidatePair(entries[0], entries[1], t, network, expectedRule)
    else if AddressOf(entries[1]) == Some(t.from) then ValidatePair(entries[1], entries[0], t, network, expectedRule)
    else Invalid(PayerMismatch)
  }

  // ---- What acceptance means ----

  /** The two entries of an accepted payment, field by field. */
  predicate Endorses(
    payer: AuthEntry, delegated: AuthEntry, t: TransferSpec, network: string, delegate: string, ids: seq<u32>)
  {
    && AddressOf(payer) == Some(t.from) && AddressOf(delegated) == Some(delegate)
    && ids != []
    && payer.root.ContractCall? && payer.root.contract == t.token && payer.root.fn == "transfer"
    && payer.root.subInvocations == []
    && ArgsMatch(payer.root.args, t) == Ok(true)
    && ReadPayload(payer.credentials.signature) == Some(AuthPayload(delegate, ids))
    && !delegated.credentials.signature.Void?
    && delegated.credentials.expiration == payer.credentials.expiration
    && delegated.root == ContractCall(t.from, "__check_auth", [Bytes(ExpectedDigest(payer, network, ids))], [])
  }

  /** The entry the validator takes for the payer's. */
  function PayerEntry(entries: seq<AuthEntry>, t: TransferSpec): AuthEntry
    requires |entries| == 2
  {
    if AddressOf(entries[0]) == Some(t.from) then entries[0] else entries[1]
  }

  function DelegatedEntry(entries: seq<AuthEntry>, t: TransferSpec): AuthEntry
    requires |entries| == 2
  {
    if AddressOf(entries[0]) == Some(t.from) then entries[1] else entries[0]
  }

  /** The validator accepts exactly the pairs of entries that endorse the transfer under the expected rule. */
  lemma ValidIffEndorsed(
    entries: seq<AuthEntry>, t: TransferSpec, network: string, rule: Option<int>, delegate: string, ids: seq<u32>)
    ensures ValidateEntries(entries, t, network, rule) == Valid(t.from, delegate, ids)
      <==> && |entries| == 2
           && Endorses(PayerEntry(entries, t), DelegatedEntry(entries, t), t, network, delegate, ids)
           && (rule.Some? ==> ids == [rule.value])
  {
    if |entries| == 2 && AddressOf(PayerEntry(entries, t)) == Some(t.from) {
      PairValidIffEndorsed(PayerEntry(entries, t), DelegatedEntry(entries, t), t, network, rule, delegate, ids);
    }
  }

  lemma PairValidIffEndorsed(
    payer: AuthEntry, delegated: AuthEntry, t: TransferSpec, network: string, rule: Option<int>,
    delegate: string, ids: seq<u32>)
    requires AddressOf(payer) == Some(t.from)
    ensures ValidatePair(payer, delegated, t, network, rule) == Valid(t.from, delegate, ids)
      <==> Endorses(payer, delegated, t, network, delegate, ids) && (rule.Some? ==> ids == [rule.value])
  {
  }

  /** The payload reader accepts exactly the two orders of the builder's payload. */
  lemma ReadsWhatIsBuilt(signature: ScVal, delegate: string, ids: seq<u32>)
    requires ids != []
    ensures ReadPayload(signature) == Some(AuthPayload(delegate, ids))
      <==> (signature == AuthPayloadScVal(delegate, ids)
            || signature == Map([AuthPayloadScVal(delegate, ids).entries[1],
                                 AuthPayloadScVal(delegate, ids).entries[0]]))
  {
    var canonical := AuthPayloadScVal(delegate, ids);
    assert Words(RuleIdItems(ids)) == ids;
    if ReadPayload(signature) == Some(AuthPayload(delegate, ids)) {
      var entries := signature.entries;
      NamedOfTwo(entries, "context_rule_ids");
      NamedOfTwo(entries, "signers");
      var items := Named(entries, "context_rule_ids").value.items;
      assert items == RuleIdItems(ids) by {
        assert forall i :: 0 <= i < |items| ==> items[i] == U32(Words(items)[i]);
      }
      SoleSignerIsBuilt(Named(entries, "signers").value, delegate);
      assert entries == [entries[0], entries[1]];
    } else {
      NamedOfTwo(canonical.entries, "context_rule_ids");
      NamedOfTwo(canonical.entries, "signers");
      var swapped := [canonical.entries[1], canonical.entries[0]];
      NamedOfTwo(swapped, "context_rule_ids");
      NamedOfTwo(swapped, "signers");
    }
  }

  lemma NamedOfTwo(entries: seq<MapEntry>, name: string)
    requires |entries| == 2
    ensures Named(entries, name) ==
      if entries[1].key == Symbol(name) then Some(entries[1].val)
      else if entries[0].key == Symbol(name) then Some(entries[0].val)
      else None
  {
    var first := entries[..1];
    assert first[0] == entries[0] && first[..0] == [];
    assert Named(first, name) == if first[0].key == Symbol(name) then Some(first[0].val) else Named(first[..0], name);
  }

  lemma SoleSignerIsBuilt(signers: ScVal, delegate: string)
    requires SoleSigner(signers) == Some(delegate)
    ensures signers == SignersScVal(delegate)
  {
    var signer := signers.entries[0];
    assert signers.entries == [signer];
    assert signer.key.items == [signer.key.items[0], signer.key.items[1]];
    assert signer.val == Bytes(Raw([]));
  }

  // ---- Main results ----

  /**
    Entries built from a recorded transfer of the payer are accepted as built, with the same delegate and rules,
    unless another rule was expected. In the other order they are accepted exactly when the delegate is not the payer.
   */
  lemma BuiltIsAccepted(
    entry: AuthEntry, spec: TransferSpec, delegate: string, ids: seq<u32>, validUntil: int, network: string,
    delegateNonce: int, delegateSignature: seq<ScVal>, rule: Option<int>)
    requires AddressOf(entry) == Some(spec.from) && TransferInvocation(spec) == Ok(entry.root)
    requires BuildEntries(entry, delegate, ids, validUntil, network, delegateNonce, delegateSignature).Ok?
    ensures
      var built := BuildEntries(entry, delegate, ids, validUntil, network, delegateNonce, delegateSignature).value;
      var inOrder := ValidateEntries([built.smartAccount, built.delegated], spec, network, rule);
      var swapped := ValidateEntries([built.delegated, built.smartAccount], spec, network, rule);
      var fits := rule.None? || ids == [rule.value];
      && (inOrder == Valid(spec.from, delegate, ids) <==> fits)
      && (swapped == Valid(spec.from, delegate, ids) <==> fits && delegate != spec.from)
      && (fits ==> inOrder.Valid?)
      && (swapped.Valid? ==> delegate != spec.from)
  {
    var built := BuildEntries(entry, delegate, ids, validUntil, network, delegateNonce, delegateSignature).value;
    ReadsWhatIsBuilt(built.smartAccount.credentials.signature, delegate, ids);
    assert Endorses(built.smartAccount, built.delegated, spec, network, delegate, ids);
    ValidIffEndorsed([built.smartAccount, built.delegated], spec, network, rule, delegate, ids);
    ValidIffEndorsed([built.delegated, built.smartAccount], spec, network, rule, delegate, ids);
  }

  /**
    Binding: a delegated entry accepted beside one payer entry is accepted beside another only if both carry the same
    network, nonce, expiration, invocation and address, and with the same delegate and rule list.
   */
  lemma DelegatedEntryBinds(
    p: AuthEntry, q: AuthEntry, d: AuthEntry, t: TransferSpec, u: TransferSpec, network: string, other: string,
    rule: Option<int>, otherRule: Option<int>)
    requires AddressOf(p) == Some(t.from) && AddressOf(q) == Some(u.from)
    requires ValidatePair(p, d, t, network, rule).Valid? && ValidatePair(q, d, u, other, otherRule).Valid?
    ensures network == other && t == u
    ensures p.root == q.root
    ensures p.credentials.(signature := Void) == q.credentials.(signature := Void)
    ensures ValidatePair(p, d, t, network, rule) == ValidatePair(q, d, u, other, otherRule)
  {
    var v := ValidatePair(p, d, t, network, rule);
    var w := ValidatePair(q, d, u, other, otherRule);
    PairValidIffEndorsed(p, d, t, network, rule, v.delegate, v.ruleIds);
    PairValidIffEndorsed(q, d, u, other, otherRule, w.delegate, w.ruleIds);
    assert d.root.args[0].blob == ExpectedDigest(p, network, v.ruleIds);
    assert d.root.args[0].blob == ExpectedDigest(q, other, w.ruleIds);
  }
}
