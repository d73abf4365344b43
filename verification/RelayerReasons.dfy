/** Why the relayer's verification refuses a payment: each reason under its own condition, and in which order. */
module RelayerReasons {
  import opened Wrappers
  import opened JsText
  import opened X402
  import opened Soroban
  import opened Authorization
  import opened PaymentWindow
  import R = VerifyReasons
  import UpstreamEvents
  import PolicyVerify
  import opened RelayerVerify
  import opened RelayerVerifyTheorems

  // ---- The request and its operation ----

  lemma RequestReasons(p: Params, c: Config)
    ensures
      var e := RequestError(p, c);
      var versioned := p.version == 2 && p.accepted != None;
      var exact := versioned && p.accepted.value.scheme == "exact" && p.req.scheme == "exact";
      var onNetwork := exact && (c.network == "stellar:pubnet" || c.network == "stellar:testnet")
                       && p.accepted.value.network == c.network && p.req.network == c.network;
      && (e == Some(R.InvalidVersion) <==> !versioned)
      && (e == Some(R.InvalidScheme) <==> versioned && !exact)
      && (e == Some(R.InvalidNetwork) <==> exact && !onNetwork)
      && (e == Some(R.UnsupportedAsset) <==>
            onNetwork && forall i :: 0 <= i < |c.assets| ==> c.assets[i] != p.req.asset)
      && (e == None <==> RequestIsFor(p, c))
  {
  }

  lemma OperationReasons(tx: Option<Transaction>, req: Requirements)
    ensures
      var e := OperationError(tx, req);
      var oneCall := tx != None && |tx.value.operations| == 1 && tx.value.operations[0].InvokeHostFunction?
                     && tx.value.operations[0].func.InvokeContract?;
      && (e == Some(R.Malformed) <==> tx == None)
      && (e == Some(R.WrongOperation) <==> tx != None && !oneCall)
      && (e == Some(R.WrongAsset) <==> oneCall && tx.value.operations[0].func.contract != req.asset)
      && (e == Some(R.WrongFunctionName) <==>
            && oneCall && tx.value.operations[0].func.contract == req.asset
            && tx.value.operations[0].func.fn != "transfer")
      && (e == Some(R.WrongFunctionArgs) <==>
            && oneCall && tx.value.operations[0].func.contract == req.asset
            && tx.value.operations[0].func.fn == "transfer" && |tx.value.operations[0].func.args| != 3)
      && (e.Some? ==>
            e.value in {R.Malformed, R.WrongOperation, R.WrongAsset, R.WrongFunctionName, R.WrongFunctionArgs})
  {
  }

  /** The facilitator's own funds first, then recipient and amount; an amount that does not convert throws. */
  lemma TransferReasons(args: seq<ScVal>, req: Requirements, address: Option<string>, c: Config)
    requires |args| == 3
    ensures
      var e, from := TransferError(args, req, Protected(address, c)), ToNative(args[0]);
      var own := from.NString? && Own(from.text, address, c);
      var paysTo := !own && ToNative(args[1]) == NString(req.payTo);
      && (e == Some(Unverified(R.UnsafeFromAddress, Some(from))) <==> own)
      && (e == Some(Unverified(R.WrongRecipient, Some(from))) <==> !own && !paysTo)
      && (e == Some(Unverified(R.WrongAmount, Some(from))) <==>
            && paysTo
            && (req.amount == ""
                || (BigIntOf(req.amount).Some? && ToNative(args[2]) != NBig(BigIntOf(req.amount).value))))
      && (e == Some(UNEXPECTED) <==> paysTo && req.amount != "" && BigIntOf(req.amount) == None)
  {
    if ToNative(args[0]).NString? {
      ProtectedAreOwn(ToNative(args[0]).text, address, c);
    }
  }

  // ---- The authorization entries ----

  predicate Plain(e: AuthEntry) {
    e.credentials.AddressCredentials? && e.root.subInvocations == []
  }

  /** The first entry that is not a plain address credential. */
  predicate FirstOdd(entries: seq<AuthEntry>, i: nat) {
    i < |entries| && !Plain(entries[i]) && forall j :: 0 <= j < i ==> Plain(entries[j])
  }

  lemma {:induction false} FirstOddDecides(entries: seq<AuthEntry>)
    ensures FirstEntryError(entries) == None <==> forall i :: 0 <= i < |entries| ==> Plain(entries[i])
    ensures forall i: nat :: FirstOdd(entries, i) ==>
      FirstEntryError(entries) ==
        Some(if entries[i].credentials.AddressCredentials? then R.HasSubInvocations else R.UnsupportedCredential)
    decreases |entries|
  {
    if entries != [] {
      FirstOddDecides(entries[1..]);
      assert forall i :: 1 <= i < |entries| ==> entries[i] == entries[1..][i - 1];
      forall i: nat | FirstOdd(entries, i)
        ensures FirstEntryError(entries) ==
          Some(if entries[i].credentials.AddressCredentials? then R.HasSubInvocations else R.UnsupportedCredential)
      {
        assert i > 0 ==> Plain(entries[0]) && FirstOdd(entries[1..], i - 1);
      }
    }
  }

  ghost predicate NamesOwn(entries: seq<AuthEntry>, address: Option<string>, c: Config) {
    exists a :: Own(a, address, c) && HasEntryOf(entries, a)
  }

  predicate HasSignedEntryOf(entries: seq<AuthEntry>, a: string) {
    exists e :: e in entries && e.credentials.AddressCredentials? && e.credentials.address == a
      && e.credentials.signature != Void
  }

  lemma SignedMeans(entries: seq<AuthEntry>, a: string)
    ensures SignedBy(entries, a) <==> HasSignedEntryOf(entries, a)
  {
    if e :| e in entries && e.credentials.AddressCredentials? && e.credentials.address == a
            && e.credentials.signature != Void {
      var i :| 0 <= i < |entries| && entries[i] == e;
      assert AddressOf(entries[i]) == Some(a);
    }
  }

  lemma OwnEntryIsFound(entries: seq<AuthEntry>, address: Option<string>, c: Config)
    ensures AuthEntriesError(entries, Protected(address, c)) == Some(R.FacilitatorInAuth)
      <==> NamesOwn(entries, address, c)
    ensures !NamesOwn(entries, address, c) ==>
      AuthEntriesError(entries, Protected(address, c)) == FirstEntryError(entries)
  {
    var protected := Protected(address, c);
    FirstOddDecides(entries);
    forall a ensures a in protected <==> Own(a, address, c) {
      ProtectedAreOwn(a, address, c);
    }
    forall a ensures Names(entries, a) <==> HasEntryOf(entries, a) {
      NamesMeans(entries, a);
    }
    if exists i :: 0 <= i < |protected| && Names(entries, protected[i]) {
      var i :| 0 <= i < |protected| && Names(entries, protected[i]);
      assert protected[i] in protected;
      assert Own(protected[i], address, c);
    }
    if a :| Own(a, address, c) && HasEntryOf(entries, a) {
      assert a in protected;
    }
    NeverFacilitator(entries);
  }

  lemma {:induction false} NeverFacilitator(entries: seq<AuthEntry>)
    ensures FirstEntryError(entries) != Some(R.FacilitatorInAuth)
    decreases |entries|
  {
    if entries != [] {
      NeverFacilitator(entries[1..]);
    }
  }

  /**
    The checks of the authorization, first failure first: envelope signatures, no entries, an entry of the
    facilitator, the first entry that is not a plain address credential, no signed entry of the payer, an unsigned
    entry, and last a source of the facilitator's.
   */
  lemma AuthReasons(p: Params, c: Config, payer: string, address: Option<string>)
    requires OperationError(p.tx, p.req).None?
    ensures
      var e, entries := AuthError(p, c, NString(payer), address), p.tx.value.operations[0].auth;
      var unsealed := p.tx.value.signatures == 0;
      var plain := unsealed && entries != [] && !NamesOwn(entries, address, c)
                   && forall i :: 0 <= i < |entries| ==> Plain(entries[i]);
      var ofPayer := plain && HasSignedEntryOf(entries, payer);
      var signed := ofPayer && forall i :: 0 <= i < |entries| ==> entries[i].credentials.signature != Void;
      && (e == Some(R.HasEnvelopeSignatures) <==> !unsealed)
      && (e == Some(R.MissingAuthEntries) <==> unsealed && entries == [])
      && (e == Some(R.FacilitatorInAuth) <==> unsealed && NamesOwn(entries, address, c))
      && (forall i: nat :: FirstOdd(entries, i) && unsealed && !NamesOwn(entries, address, c) ==>
            e == Some(if entries[i].credentials.AddressCredentials? then R.HasSubInvocations
                      else R.UnsupportedCredential))
      && (e == Some(R.MissingPayerAuth) <==> plain && !ofPayer)
      && (e == Some(R.UnsignedAuthEntry) <==> ofPayer && !signed)
      && (e == Some(R.UnsafeSource) <==> signed && !SourceApart(p.tx.value.operations[0], p.tx.value, address, c))
      && (e == None <==> signed && SourceApart(p.tx.value.operations[0], p.tx.value, address, c))
  {
    var entries := p.tx.value.operations[0].auth;
    OwnEntryIsFound(entries, address, c);
    FirstOddDecides(entries);
    SignedMeans(entries, payer);
    EntryErrorsAreTwo(entries);
    if NamesOwn(entries, address, c) {
      var a :| Own(a, address, c) && HasEntryOf(entries, a);
      assert entries != [];
    }
  }

  lemma {:induction false} EntryErrorsAreTwo(entries: seq<AuthEntry>)
    ensures FirstEntryError(entries) in {None, Some(R.HasSubInvocations), Some(R.UnsupportedCredential)}
    decreases |entries|
  {
    if entries != [] {
      EntryErrorsAreTwo(entries[1..]);
    }
  }

  // ---- Window, fee and simulation ----

  lemma {:induction false} FirstExpiryDecides(expirations: seq<int>, current: int, timeoutSeconds: int, i: nat)
    requires i < |expirations|
    requires forall j :: 0 <= j < i ==>
      current < expirations[j] && 5 * (expirations[j] - current - 1) < timeoutSeconds
    ensures expirations[i] <= current ==> FirstExpiry(expirations, current, timeoutSeconds).AlreadyExpired?
    ensures expirations[i] > current && 5 * (expirations[i] - current - 1) >= timeoutSeconds ==>
      FirstExpiry(expirations, current, timeoutSeconds).TooFar?
    decreases i
  {
    WindowInSeconds(expirations[0], current, timeoutSeconds);
    if i > 0 {
      FirstExpiryDecides(expirations[1..], current, timeoutSeconds, i - 1);
    }
  }

  /**
    The first address credential outside the window decides whether the payment is expired or too far ahead. A ledger
    that cannot be read is a failed simulation if the relayer says so, and unexpected if the call throws.
   */
  lemma WindowReasons(entries: seq<AuthEntry>, ledger: LedgerReply, timeoutSeconds: int, payer: Native, i: nat)
    ensures
      var e, expirations := WindowError(entries, ledger, timeoutSeconds, payer), Expirations(entries);
      && (ledger.LedgerThrew? ==> e == Some(UNEXPECTED))
      && (ledger.LedgerFailed? ==> e == Some(Unverified(R.SimulationFailed, Some(payer))))
      && (ledger.Latest? && i < |expirations|
          && (forall j :: 0 <= j < i ==>
                ledger.sequence < expirations[j] && 5 * (expirations[j] - ledger.sequence - 1) < timeoutSeconds) ==>
            && (expirations[i] <= ledger.sequence ==> e == Some(Unverified(R.AlreadyExpired, Some(payer))))
            && (expirations[i] > ledger.sequence && 5 * (expirations[i] - ledger.sequence - 1) >= timeoutSeconds ==>
                  e == Some(Unverified(R.ExpirationTooFar, Some(payer)))))
  {
    var expirations := Expirations(entries);
    if ledger.Latest? && i < |expirations| && forall j :: 0 <= j < i ==>
         ledger.sequence < expirations[j] && 5 * (expirations[j] - ledger.sequence - 1) < timeoutSeconds {
      FirstExpiryDecides(expirations, ledger.sequence, timeoutSeconds, i);
    }
  }

  predicate Given(s: Option<string>) {
    s != None && s != Some("")
  }

  predicate Below(a: string, b: string) {
    BigIntOf(a) != None && BigIntOf(b) != None && BigIntOf(a).value < BigIntOf(b).value
  }

  predicate Converts(s: string) {
    BigIntOf(s) != None
  }

  /** Minimum before cap; a bound or fee that does not convert throws; only then the events are looked at. */
  lemma SimulationReasons(
    fee: string, minimum: Option<string>, events: seq<DiagnosticEvent>, cap: Option<string>, payer: Native)
    ensures
      var e := SimulationError(Simulated(minimum, events), fee, cap, payer);
      var least := fee != "" && Given(minimum);
      var most := fee != "" && Given(cap);
      var minimumFails := least && (!Converts(fee) || !Converts(minimum.value));
      var below := least && Below(fee, minimum.value);
      var capFails := !minimumFails && !below && most && (!Converts(fee) || !Converts(cap.value));
      var above := !minimumFails && !below && most && Below(cap.value, fee);
      && (e == Some(UNEXPECTED) <==> minimumFails || capFails)
      && (e == Some(Unverified(R.FeeBelowMinimum, Some(payer))) <==> below)
      && (e == Some(Unverified(R.FeeAboveMaximum, Some(payer))) <==> above)
      && (e == Some(Unverified(R.NoTransferEvents, Some(payer))) <==> FeeFits(fee, minimum, cap) && events == [])
      && (e == None <==> FeeFits(fee, minimum, cap) && events != [])
    ensures SimulationError(SimulationRejected, fee, cap, payer) == Some(Unverified(R.SimulationFailed, Some(payer)))
    ensures SimulationError(SimulationThrew, fee, cap, payer) == Some(UNEXPECTED)
  {
    FeePassesIff(fee, minimum, cap);
  }

  // ---- The order of the checks ----

  /** The request is checked first, then the relayer and its network, then the operation. */
  lemma EarlyRefusals(p: Params, c: Config, env: Env)
    ensures !RequestIsFor(p, c) ==>
      RequestError(p, c) != None && Verify(p, c, env) == Unverified(RequestError(p, c).value, None)
    ensures RequestIsFor(p, c) && env.relayer.RelayerThrew? ==> Verify(p, c, env) == UNEXPECTED
    ensures RequestIsFor(p, c) && env.relayer.RelayerInfo? && !OnNetwork(env.relayer.network, c.network) ==>
      Verify(p, c, env) == Unverified(R.VerifyNetworkMismatch, None)
    ensures RequestIsFor(p, c) && env.relayer.RelayerInfo? && OnNetwork(env.relayer.network, c.network)
            && OperationError(p.tx, p.req) != None ==>
      Verify(p, c, env) == Unverified(OperationError(p.tx, p.req).value, None)
  {
    RequestPassesIff(p, c);
  }

  /** A payment whose request and operation are in order. */
  predicate Examined(p: Params, c: Config, env: Env) {
    && RequestIsFor(p, c) && env.relayer.RelayerInfo? && OnNetwork(env.relayer.network, c.network)
    && OperationError(p.tx, p.req) == None
  }

  /**
    Then the transfer's values, the manifest, the recipient under a manifest, the authorization, the window, the fee
    and simulation, and last the events, each refusal naming the payer the transfer names.
   */
  lemma LateRefusals(p: Params, c: Config, env: Env)
    requires Examined(p, c, env)
    ensures
      var op, address, v := p.tx.value.operations[0], env.relayer.address, Verify(p, c, env);
      var from := ToNative(op.func.args[0]);
      var transfer := TransferError(op.func.args, p.req, Protected(address, c));
      var selection := Select(c.manifests, from, env);
      var participant := selection.Selected? && Own(p.req.payTo, address, c);
      var auth := AuthError(p, c, from, address);
      var window := WindowError(op.auth, env.ledger, p.req.maxTimeoutSeconds, from);
      var simulation := SimulationError(env.simulation, p.tx.value.fee, c.maxFee, from);
      && (transfer != None ==> v == transfer.value)
      && (transfer == None && selection.SelectionThrew? ==> v == UNEXPECTED)
      && (transfer == None && participant ==> v == Unverified(R.UnsafePolicyParticipant, Some(from)))
      && (transfer == None && !selection.SelectionThrew? && !participant && auth != None ==>
            v == Unverified(auth.value, Some(from)))
      && (transfer == None && !selection.SelectionThrew? && !participant && auth == None ==>
            && (window != None ==> v == window.value)
            && (window == None && simulation != None ==> v == simulation.value))
  {
    RequestPassesIff(p, c);
    ProtectedAreOwn(p.req.payTo, env.relayer.address, c);
  }

  /** A payment that has only its events left to pass. */
  ghost predicate AwaitsEvents(p: Params, c: Config, env: Env, payer: string) {
    && Examined(p, c, env) && env.simulation.Simulated?
    && var op, address := p.tx.value.operations[0], env.relayer.address;
       ToNative(op.func.args[0]) == NString(payer)
       && TransferError(op.func.args, p.req, Protected(address, c)) == None
       && !Select(c.manifests, NString(payer), env).SelectionThrew?
       && (Select(c.manifests, NString(payer), env).Selected? ==> !Own(p.req.payTo, address, c))
       && AuthError(p, c, NString(payer), address) == None
       && WindowError(op.auth, env.ledger, p.req.maxTimeoutSeconds, NString(payer)) == None
       && SimulationError(env.simulation, p.tx.value.fee, c.maxFee, NString(payer)) == None
  }

  /** Without a manifest the upstream validator's reason is reported; under one the policy-aware decision's is. */
  lemma EventRefusals(p: Params, c: Config, env: Env, payer: string)
    requires AwaitsEvents(p, c, env, payer)
    ensures BigIntOf(p.req.amount) != None
    ensures
      var s, v := Select(c.manifests, NString(payer), env), Verify(p, c, env);
      var upstream := UpstreamEvents.UpstreamVerdict(
        env.simulation.events, ExpectedTransfer(p.req, payer, BigIntOf(p.req.amount).value));
      && (s.NoManifest? && upstream == Some(UpstreamEvents.NoContractId) ==>
            v == Unverified(R.EventMissingContractId, Some(NString(payer))))
      && (s.NoManifest? && upstream == Some(UpstreamEvents.NonTransferEvent) ==>
            v == Unverified(R.EventNotTransfer, Some(NString(payer))))
      && (s.NoManifest? && upstream.Some? && !upstream.value.NoContractId? && !upstream.value.NonTransferEvent? ==>
            v == Unverified(R.UnexpectedBalanceChanges, Some(NString(payer))))
      && (s.Selected? && HashesFor(s.observed, env).HashesThrew? ==> v == UNEXPECTED)
      && (s.Selected? && HashesFor(s.observed, env).Hashes? ==>
            var d := PolicyDecision(p, env, env.relayer.address, payer, s);
            && (d.Threw? ==> v == UNEXPECTED)
            && (d.Refused? ==> v == Unverified(d.reason, Some(NString(payer))))
            && (d.Approved? && Own(d.delegate, env.relayer.address, c) ==>
                  v == Unverified(R.UnsafePolicyParticipant, Some(NString(payer)))))
  {
    RequestPassesIff(p, c);
    ProtectedAreOwn(p.req.payTo, env.relayer.address, c);
    var s := Select(c.manifests, NString(payer), env);
    if s.Selected? && HashesFor(s.observed, env).Hashes? {
      var d := PolicyDecision(p, env, env.relayer.address, payer, s);
      if d.Approved? {
        ProtectedAreOwn(d.delegate, env.relayer.address, c);
      }
    }
  }
}
