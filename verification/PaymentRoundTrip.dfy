/** What the payer builds, the facilitator verifies: the two ends of a payment against each other. */
module PaymentRoundTrip {
  import opened Wrappers
  import opened Decimal
  import opened JsText
  import opened X402
  import opened Soroban
  import opened Authorization
  import opened PaymentWindow
  import opened RelayerVerify
  import opened RelayerVerifyTheorems
  import PolicyEventTheorems
  import PolicyVerify

  datatype PayerConfig = PayerConfig(
    smartAccount: string, delegate: string, ruleId: u32, source: string, cap: string, passphrase: string)

  /** What the network answers while building: the ledger, the recorded entries, and the enforced minimum fee. */
  datatype BuildReplies = BuildReplies(
    latest: int, recorded: seq<AuthEntry>, delegateNonce: int, delegateSignature: seq<ScVal>, minFee: Option<string>)

  function FirstOf(entries: seq<AuthEntry>, address: string): Option<AuthEntry> {
    if entries == [] then None
    else if AddressOf(entries[0]) == Some(address) then Some(entries[0])
    else FirstOf(entries[1..], address)
  }

  function SpecFor(payer: PayerConfig, req: Requirements, amount: int): TransferSpec {
    TransferSpec(req.asset, payer.smartAccount, req.payTo, amount)
  }

  /** The built payment, or None where building throws. */
  function BuildPayment(payer: PayerConfig, req: Requirements, replies: BuildReplies): Option<Params> {
    if req.network !in {"stellar:testnet", "stellar:pubnet"} then None
    else if BigIntOf(req.amount).None? || BigIntOf(req.amount).value <= 0 then None
    else
      var invocation := TransferInvocation(SpecFor(payer, req, BigIntOf(req.amount).value));
      var entry := FirstOf(replies.recorded, payer.smartAccount);
      if invocation.Err? || entry.None? then None
      else
        var built := BuildEntries(
          entry.value, payer.delegate, [payer.ruleId], ValidUntil(replies.latest, req.maxTimeoutSeconds),
          payer.passphrase, replies.delegateNonce, replies.delegateSignature);
        var fee := SelectTransactionFee(replies.minFee, payer.cap);
        if built.Err? || fee.Err? then None
        else
          var call := InvokeContract(invocation.value.contract, invocation.value.fn, invocation.value.args);
          var operation := InvokeHostFunction(None, call, [built.value.smartAccount, built.value.delegated]);
          Some(Params(2, Some(req), req, Some(Transaction(payer.source, fee.value, 0, [operation]))))
  }

  lemma {:induction false} FirstOfIs(entries: seq<AuthEntry>, address: string)
    ensures FirstOf(entries, address).Some? ==>
      FirstOf(entries, address).value in entries && AddressOf(FirstOf(entries, address).value) == Some(address)
    decreases |entries|
  {
    if entries != [] {
      FirstOfIs(entries[1..], address);
    }
  }

  lemma {:induction false} FirstOfExists(entries: seq<AuthEntry>, address: string)
    ensures FirstOf(entries, address).Some? <==>
      exists i :: 0 <= i < |entries| && AddressOf(entries[i]) == Some(address)
    decreases |entries|
  {
    if entries != [] {
      FirstOfExists(entries[1..], address);
      assert forall i :: 1 <= i < |entries| ==> entries[i] == entries[1..][i - 1];
      if i :| 0 <= i < |entries| - 1 && AddressOf(entries[1..][i]) == Some(address) {
        assert AddressOf(entries[i + 1]) == Some(address);
      }
    }
  }

  /**
    Building succeeds exactly on a Stellar network, for a positive amount of at most 64 bits, when the recorded
    entries include one of the account, and the simulated minimum's fee is within the payer's cap.
   */
  lemma BuildsIff(payer: PayerConfig, req: Requirements, replies: BuildReplies)
    ensures BuildPayment(payer, req, replies).Some? <==>
      && (req.network == "stellar:testnet" || req.network == "stellar:pubnet")
      && BigIntOf(req.amount).Some? && 0 < BigIntOf(req.amount).value < TWO_TO_THE_64
      && (exists i :: 0 <= i < |replies.recorded| && AddressOf(replies.recorded[i]) == Some(payer.smartAccount))
      && replies.minFee.Some? && replies.minFee.value != "" && AllDigits(replies.minFee.value)
      && payer.cap != "" && AllDigits(payer.cap) && Parse(payer.cap) > 0
      && Parse(replies.minFee.value) + CeilDiv(Parse(replies.minFee.value), 10) + 100 <= Parse(payer.cap)
  {
    FirstOfExists(replies.recorded, payer.smartAccount);
    FirstOfIs(replies.recorded, payer.smartAccount);
    SelectedIffWithinCap(replies.minFee, payer.cap);
  }

  /** The network recorded the requested transfer as the payer's root. */
  predicate RecordsTransfer(payer: PayerConfig, req: Requirements, replies: BuildReplies) {
    && BigIntOf(req.amount).Some?
    && FirstOf(replies.recorded, payer.smartAccount).Some?
    && TransferInvocation(SpecFor(payer, req, BigIntOf(req.amount).value))
         == Ok(FirstOf(replies.recorded, payer.smartAccount).value.root)
  }

  /** A built transaction pays: the facilitator's transaction checks find the one transfer and its endorsement. */
  lemma BuiltTransactionPays(payer: PayerConfig, req: Requirements, replies: BuildReplies)
    requires BuildPayment(payer, req, replies).Some? && RecordsTransfer(payer, req, replies)
    ensures
      var t := SpecFor(payer, req, BigIntOf(req.amount).value);
      PolicyVerify.TransactionPays(
        BuildPayment(payer, req, replies).value.tx, payer.passphrase, t, payer.delegate, [payer.ruleId])
  {
    var t := SpecFor(payer, req, BigIntOf(req.amount).value);
    var entry := FirstOf(replies.recorded, payer.smartAccount).value;
    FirstOfIs(replies.recorded, payer.smartAccount);
    var until := ValidUntil(replies.latest, req.maxTimeoutSeconds);
    var built := BuildEntries(
      entry, payer.delegate, [payer.ruleId], until, payer.passphrase, replies.delegateNonce,
      replies.delegateSignature).value;
    BuiltIsAccepted(entry, t, payer.delegate, [payer.ruleId], until, payer.passphrase, replies.delegateNonce,
                    replies.delegateSignature, None);
    ValidIffEndorsed([built.smartAccount, built.delegated], t, payer.passphrase, None, payer.delegate, [payer.ruleId]);
  }

  /** Neither party of the payment, nor the source of its transaction, is the facilitator. */
  ghost predicate KeepsApart(payer: PayerConfig, req: Requirements, address: Option<string>, c: Config) {
    && address.Some? && payer.source != address.value
    && forall a :: Own(a, address, c) ==>
         payer.source != a && payer.smartAccount != a && payer.delegate != a && req.payTo != a
  }

  lemma BuiltOperationIsRequired(payer: PayerConfig, req: Requirements, replies: BuildReplies)
    requires BuildPayment(payer, req, replies).Some? && RecordsTransfer(payer, req, replies)
    ensures
      var p := BuildPayment(payer, req, replies).value;
      && p.tx.Some? && p.tx.value.signatures == 0 && |p.tx.value.operations| == 1
      && RequiredOperation(p.tx.value.operations[0], req, payer.smartAccount, BigIntOf(req.amount).value)
  {
    BuiltTransactionPays(payer, req, replies);
    FirstOfIs(replies.recorded, payer.smartAccount);
  }

  lemma BuiltKeepsApart(
    payer: PayerConfig, req: Requirements, replies: BuildReplies, address: Option<string>, c: Config)
    requires BuildPayment(payer, req, replies).Some? && RecordsTransfer(payer, req, replies)
    requires KeepsApart(payer, req, address, c)
    ensures
      var tx := BuildPayment(payer, req, replies).value.tx;
      && tx.Some? && |tx.value.operations| == 1 && tx.value.operations[0].InvokeHostFunction?
      && SparesOwn(tx.value.operations[0].auth, payer.smartAccount, address, c)
      && SourceApart(tx.value.operations[0], tx.value, address, c)
  {
    BuiltTransactionPays(payer, req, replies);
    FirstOfIs(replies.recorded, payer.smartAccount);
    if c.fundRelayerAddress.Some? && c.fundRelayerAddress.value != "" {
      assert Own(c.fundRelayerAddress.value, address, c);
    }
  }

  /** Checked within the validity period, with a minimum fee that has not outgrown the headroom. */
  predicate ChainInBounds(payer: PayerConfig, req: Requirements, replies: BuildReplies, c: Config, env: Env) {
    && env.ledger.Latest? && req.maxTimeoutSeconds > 5
    && replies.latest <= env.ledger.sequence < ValidUntil(replies.latest, req.maxTimeoutSeconds)
    && env.simulation.Simulated? && env.simulation.events != []
    && replies.minFee.Some? && IsUnsigned(replies.minFee.value)
    && env.simulation.minResourceFee.Some? && IsUnsigned(env.simulation.minResourceFee.value)
    && Parse(env.simulation.minResourceFee.value)
         <= Parse(replies.minFee.value) + CeilDiv(Parse(replies.minFee.value), 10) + BASE_FEE_HEADROOM
    && IsUnsigned(payer.cap)
    && (c.maxFee.Some? ==> IsUnsigned(c.maxFee.value) && Parse(payer.cap) <= Parse(c.maxFee.value))
  }

  lemma BuiltFeeFits(payer: PayerConfig, req: Requirements, replies: BuildReplies, c: Config, env: Env)
    requires BuildPayment(payer, req, replies).Some? && ChainInBounds(payer, req, replies, c, env)
    ensures
      var tx := BuildPayment(payer, req, replies).value.tx;
      tx.Some? && FeeFits(tx.value.fee, env.simulation.minResourceFee, c.maxFee)
  {
    var fee := BuildPayment(payer, req, replies).value.tx.value.fee;
    SelectedFeePasses(replies.minFee.value, payer.cap, c.maxFee, env.simulation.minResourceFee.value);
    FeeVerdictOnNumerals(fee, env.simulation.minResourceFee, c.maxFee);
    FeePassesIff(fee, env.simulation.minResourceFee, c.maxFee);
  }

  lemma BuiltWindowFits(payer: PayerConfig, req: Requirements, replies: BuildReplies, current: int)
    requires BuildPayment(payer, req, replies).Some? && RecordsTransfer(payer, req, replies)
    requires req.maxTimeoutSeconds > 5
    requires replies.latest <= current < ValidUntil(replies.latest, req.maxTimeoutSeconds)
    ensures
      var tx := BuildPayment(payer, req, replies).value.tx;
      && tx.Some? && |tx.value.operations| == 1 && tx.value.operations[0].InvokeHostFunction?
      && InWindowAt(tx.value.operations[0].auth, current, req.maxTimeoutSeconds)
  {
    BuiltTransactionPays(payer, req, replies);
    AcceptanceWindow(replies.latest, current, req.maxTimeoutSeconds);
    WindowInSeconds(ValidUntil(replies.latest, req.maxTimeoutSeconds), current, req.maxTimeoutSeconds);
  }

  /** The selected manifest, its pins and its rule fit the payment, and the simulated events are acceptable. */
  ghost predicate PolicyFits(payer: PayerConfig, p: Params, address: Option<string>, c: Config, env: Env) {
    && env.simulation.Simulated?
    && var s := Select(c.manifests, NString(payer.smartAccount), env);
    && s.Selected? && HashesFor(s.observed, env).Hashes?
    && var r := PolicyVerify.Request(
         p.version, p.tx, p.req, env.simulation.events, s.manifest, payer.smartAccount,
         HashesFor(s.observed, env).hashes, if address == None || address == Some("") then NoLookUp else env.lookUp);
    && PolicyVerify.RequestFits(r)
    && PolicyVerify.RuleFits(r, [payer.ruleId])
    && PolicyEventTheorems.Acceptable(
         multiset(r.events), PolicyVerify.ExpectedOf(PolicyVerify.SpecOf(r), payer.ruleId), r.manifest, r.hashes)
  }

  lemma BuiltIsApproved(payer: PayerConfig, req: Requirements, replies: BuildReplies, r: PolicyVerify.Request)
    requires BuildPayment(payer, req, replies).Some? && RecordsTransfer(payer, req, replies)
    requires r.tx == BuildPayment(payer, req, replies).value.tx && r.req == req && r.payer == payer.smartAccount
    requires PolicyVerify.NetworkPhrase(req.network, payer.passphrase)
    requires PolicyVerify.RequestFits(r) && PolicyVerify.RuleFits(r, [payer.ruleId])
    requires PolicyEventTheorems.Acceptable(
               multiset(r.events), PolicyVerify.ExpectedOf(PolicyVerify.SpecOf(r), payer.ruleId), r.manifest, r.hashes)
    ensures PolicyVerify.VerifyPolicyAwarePayment(r)
      == PolicyVerify.Approved(payer.smartAccount, payer.delegate, payer.ruleId)
  {
    NumeralsReadDecimally(req.amount);
    BuiltTransactionPays(payer, req, replies);
    assert PolicyVerify.AllAgree(r, payer.delegate, [payer.ruleId]);
    PolicyVerify.ApprovedIffAllAgree(r, payer.delegate, payer.ruleId);
  }

  lemma BuiltEventsAdmitted(
    payer: PayerConfig, req: Requirements, replies: BuildReplies, c: Config, env: Env, address: Option<string>)
    requires BuildPayment(payer, req, replies).Some? && RecordsTransfer(payer, req, replies)
    requires PolicyVerify.NetworkPhrase(req.network, payer.passphrase)
    requires KeepsApart(payer, req, address, c)
    requires PolicyFits(payer, BuildPayment(payer, req, replies).value, address, c, env)
    ensures EventsAdmitted(BuildPayment(payer, req, replies).value, c, env, address, payer.smartAccount,
                           BigIntOf(req.amount).value)
  {
    var p := BuildPayment(payer, req, replies).value;
    var s := Select(c.manifests, NString(payer.smartAccount), env);
    BuiltIsApproved(payer, req, replies, PolicyRequest(
      p, s.manifest, payer.smartAccount, HashesFor(s.observed, env).hashes, env.simulation.events, address, env));
  }

  lemma BuiltRequestIsFor(payer: PayerConfig, req: Requirements, replies: BuildReplies, c: Config)
    requires BuildPayment(payer, req, replies).Some?
    requires req.scheme == "exact" && req.network == c.network && req.asset in c.assets
    ensures
      var p := BuildPayment(payer, req, replies).value;
      && RequestIsFor(p, c) && p.req == req && req.amount != "" && BigIntOf(req.amount).Some?
  {
    assert BigIntOf("") == Some(0);
  }

  /** What the built transaction has to pass besides its events. */
  ghost predicate TransactionPasses(p: Params, c: Config, env: Env, payer: string, amount: int)
    requires env.relayer.RelayerInfo?
  {
    && p.tx.Some? && p.tx.value.signatures == 0 && |p.tx.value.operations| == 1
    && var op := p.tx.value.operations[0];
    && RequiredOperation(op, p.req, payer, amount)
    && SparesOwn(op.auth, payer, env.relayer.address, c)
    && SourceApart(op, p.tx.value, env.relayer.address, c)
    && ChainAdmits(p, c, env, op.auth)
  }

  lemma BuiltTransactionPasses(
    payer: PayerConfig, req: Requirements, replies: BuildReplies, c: Config, env: Env)
    requires BuildPayment(payer, req, replies).Some? && RecordsTransfer(payer, req, replies)
    requires env.relayer.RelayerInfo? && KeepsApart(payer, req, env.relayer.address, c)
    requires ChainInBounds(payer, req, replies, c, env)
    ensures TransactionPasses(
              BuildPayment(payer, req, replies).value, c, env, payer.smartAccount, BigIntOf(req.amount).value)
  {
    BuiltOperationIsRequired(payer, req, replies);
    BuiltKeepsApart(payer, req, replies, env.relayer.address, c);
    BuiltFeeFits(payer, req, replies, c, env);
    BuiltWindowFits(payer, req, replies, env.ledger.sequence);
  }

  /**
    An honest payment is verified: what the payer builds from the recorded transfer, under a policy that fits, is
    verified for it at every ledger of its validity period and for every re-simulated fee within the headroom.
   */
  lemma BuiltPaymentIsVerified(
    payer: PayerConfig, req: Requirements, replies: BuildReplies, c: Config, env: Env)
    requires BuildPayment(payer, req, replies).Some? && RecordsTransfer(payer, req, replies)
    requires req.scheme == "exact" && req.network == c.network && req.asset in c.assets
    requires PolicyVerify.NetworkPhrase(req.network, payer.passphrase)
    requires env.relayer.RelayerInfo? && OnNetwork(env.relayer.network, c.network)
    requires KeepsApart(payer, req, env.relayer.address, c)
    requires ChainInBounds(payer, req, replies, c, env)
    requires PolicyFits(payer, BuildPayment(payer, req, replies).value, env.relayer.address, c, env)
    ensures Verify(BuildPayment(payer, req, replies).value, c, env) == Verified(payer.smartAccount)
  {
    BuiltRequestIsFor(payer, req, replies, c);
    BuiltTransactionPasses(payer, req, replies, c, env);
    BuiltEventsAdmitted(payer, req, replies, c, env, env.relayer.address);
    VerifiedIffAdmissible(BuildPayment(payer, req, replies).value, c, env, payer.smartAccount);
  }
}
