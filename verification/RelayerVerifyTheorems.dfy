/** What a verified payment is: its operation, its authorization entries, its manifest and its simulated events. */
module RelayerVerifyTheorems {
  import opened Wrappers
  import Decimal
  import opened JsText
  import opened X402
  import opened Soroban
  import opened Manifest
  import opened Authorization
  import opened PaymentWindow
  import PolicyEvents
  import PolicyEventTheorems
  import PolicyVerify
  import UpstreamEvents
  import opened RelayerVerify

  // ---- The operation ----

  /** The required call with the payer's, recipient's and amount's values. */
  predicate RequiredCall(f: HostFunction, req: Requirements, payer: string, amount: int) {
    && f.InvokeContract? && f.contract == req.asset && f.fn == "transfer" && |f.args| == 3
    && ToNative(f.args[0]) == NString(payer)
    && ToNative(f.args[1]) == NString(req.payTo)
    && ToNative(f.args[2]) == NBig(amount)
  }

  /** One of the facilitator's own addresses, as configured: the relayer's or the fund relayer's. */
  predicate Own(a: string, address: Option<string>, c: Config) {
    a != "" && (address == Some(a) || c.fundRelayerAddress == Some(a))
  }

  lemma ProtectedAreOwn(a: string, address: Option<string>, c: Config)
    ensures a in Protected(address, c) <==> Own(a, address, c)
  {
  }

  /** A signed address credential with nothing below its call. */
  predicate PlainSigned(e: AuthEntry) {
    e.credentials.AddressCredentials? && !e.credentials.signature.Void? && e.root.subInvocations == []
  }

  predicate AllPlainSigned(entries: seq<AuthEntry>) {
    forall i :: 0 <= i < |entries| ==> PlainSigned(entries[i])
  }

  predicate HasEntryOf(entries: seq<AuthEntry>, a: string) {
    exists i :: 0 <= i < |entries|
      && entries[i].credentials.AddressCredentials? && entries[i].credentials.address == a
  }

  predicate RequiredOperation(op: Operation, req: Requirements, payer: string, amount: int) {
    && op.InvokeHostFunction?
    && RequiredCall(op.func, req, payer, amount)
    && AllPlainSigned(op.auth)
    && HasEntryOf(op.auth, payer)
  }

  /** Neither the payer nor any entry is one of the facilitator's own. */
  ghost predicate SparesOwn(entries: seq<AuthEntry>, payer: string, address: Option<string>, c: Config) {
    forall a :: Own(a, address, c) ==> payer != a && !HasEntryOf(entries, a)
  }

  lemma {:induction false} NoEntryError(entries: seq<AuthEntry>)
    ensures FirstEntryError(entries).None? <==> forall i :: 0 <= i < |entries| ==> EntryError(entries[i]).None?
    decreases |entries|
  {
    if entries != [] {
      NoEntryError(entries[1..]);
      assert forall i :: 1 <= i < |entries| ==> entries[i] == entries[1..][i - 1];
    }
  }

  lemma NamesMeans(entries: seq<AuthEntry>, a: string)
    ensures Names(entries, a) <==> HasEntryOf(entries, a)
  {
    if i :| 0 <= i < |entries| && entries[i].credentials.AddressCredentials? && entries[i].credentials.address == a {
      assert AddressOf(entries[i]) == Some(a);
    }
  }

  /**
    The checks on the entries pass exactly when each is plain and signed, one of them is the payer's, and none is of
    an address to be kept out.
   */
  lemma EntriesPassIff(entries: seq<AuthEntry>, payer: string, protected: seq<string>)
    ensures AuthEntriesError(entries, protected).None? && SignedBy(entries, payer) && AllSigned(entries)
      <==> && AllPlainSigned(entries) && HasEntryOf(entries, payer)
           && forall a :: a in protected ==> !HasEntryOf(entries, a)
  {
    NoEntryError(entries);
    forall a ensures Names(entries, a) <==> HasEntryOf(entries, a) {
      NamesMeans(entries, a);
    }
    if AuthEntriesError(entries, protected).None? && AllSigned(entries) {
      forall i | 0 <= i < |entries| ensures PlainSigned(entries[i]) {
        assert EntryError(entries[i]).None?;
      }
    }
    if AllPlainSigned(entries) {
      forall i | 0 <= i < |entries| ensures EntryError(entries[i]).None? {
        assert PlainSigned(entries[i]);
      }
      if HasEntryOf(entries, payer) {
        var i :| 0 <= i < |entries| && AddressOf(entries[i]) == Some(payer);
        assert PlainSigned(entries[i]);
      }
    }
  }

  // ---- Selecting a manifest ----

  /** The first manifest that names the payer. */
  predicate FirstFor(manifests: seq<PolicyManifest>, i: nat, payer: string) {
    && i < |manifests| && manifests[i].smartAccount == Some(payer)
    && forall j :: 0 <= j < i ==> manifests[j].smartAccount != Some(payer)
  }

  lemma {:induction false} FirstNamedIff(manifests: seq<PolicyManifest>, payer: string)
    ensures FirstNamed(manifests, NString(payer)).None? <==>
      forall i :: 0 <= i < |manifests| ==> manifests[i].smartAccount != Some(payer)
    ensures forall i: nat :: FirstFor(manifests, i, payer) ==>
      FirstNamed(manifests, NString(payer)) == Some(manifests[i])
    decreases |manifests|
  {
    if manifests != [] {
      FirstNamedIff(manifests[1..], payer);
      assert forall i :: 1 <= i < |manifests| ==> manifests[i] == manifests[1..][i - 1];
      forall i: nat | FirstFor(manifests, i, payer)
        ensures FirstNamed(manifests, NString(payer)) == Some(manifests[i])
      {
        assert i > 0 ==> FirstFor(manifests[1..], i - 1, payer);
      }
    }
  }

  lemma {:induction false} SomeFirst(manifests: seq<PolicyManifest>, payer: string, n: nat) returns (i: nat)
    requires n < |manifests| && manifests[n].smartAccount == Some(payer)
    ensures FirstFor(manifests, i, payer)
    decreases n
  {
    if j: nat :| j < n && manifests[j].smartAccount == Some(payer) {
      i := SomeFirst(manifests, payer, j);
    } else {
      i := n;
    }
  }

  /** A manifest for whoever runs its code: it names no payer and pins some code. */
  predicate ForCode(m: PolicyManifest) {
    && (m.smartAccount == None || m.smartAccount == Some(""))
    && m.smartAccountWasmHash.Some? && m.smartAccountWasmHash.value != ""
  }

  /** The candidates are the manifests for code, in the order of the configuration. */
  lemma {:induction false} CandidatesInOrder(front: seq<PolicyManifest>, last: PolicyManifest)
    ensures CodePinnedOf([]) == []
    ensures CodePinnedOf(front + [last]) == CodePinnedOf(front) + if ForCode(last) then [last] else []
    decreases |front|
  {
    if front == [] {
      assert front + [last] == [last] && [last][1..] == [];
    } else {
      CandidatesInOrder(front[1..], last);
      assert (front + [last])[1..] == front[1..] + [last];
    }
  }

  /** Lookup k answered, and the payer does not run candidate k's code. */
  predicate Passed(candidates: seq<PolicyManifest>, k: nat, payer: string, env: Env)
    requires k < |candidates| && ForCode(candidates[k])
  {
    && env.hashes(k).Hashes?
    && !PolicyEvents.RunsPinned(env.hashes(k).hashes, payer, candidates[k].smartAccountWasmHash.value)
  }

  /** Lookup k is the first to show the payer running a candidate's code. */
  predicate FirstRuns(candidates: seq<PolicyManifest>, n: nat, k: nat, payer: string, env: Env)
    requires forall i :: 0 <= i < |candidates| ==> ForCode(candidates[i])
  {
    && n <= k < |candidates| && ForCode(candidates[k]) && env.hashes(k).Hashes?
    && PolicyEvents.RunsPinned(env.hashes(k).hashes, payer, candidates[k].smartAccountWasmHash.value)
    && forall j: nat :: n <= j < k ==> Passed(candidates, j, payer, env)
  }

  lemma {:induction false} FirstRunningIs(candidates: seq<PolicyManifest>, n: nat, payer: string, env: Env)
    requires forall i :: 0 <= i < |candidates| ==> CodePinned(candidates[i]) && ForCode(candidates[i])
    ensures
      var s := FirstRunning(candidates, n, NString(payer), env);
      && (s.NoManifest? <==> forall k: nat :: n <= k < |candidates| ==> Passed(candidates, k, payer, env))
      && (s.Selected? ==> exists k: nat :: FirstRuns(candidates, n, k, payer, env))
      && (forall k: nat :: FirstRuns(candidates, n, k, payer, env) ==>
            s == Selected(candidates[k], Some(env.hashes(k).hashes)))
    decreases |candidates| - n
  {
    if n < |candidates| && Passed(candidates, n, payer, env) {
      FirstRunningIs(candidates, n + 1, payer, env);
      var s := FirstRunning(candidates, n + 1, NString(payer), env);
      if s.Selected? {
        var k: nat :| FirstRuns(candidates, n + 1, k, payer, env);
        assert FirstRuns(candidates, n, k, payer, env);
      }
      forall k: nat | FirstRuns(candidates, n, k, payer, env)
        ensures s == Selected(candidates[k], Some(env.hashes(k).hashes))
      {
        assert k != n;
        assert FirstRuns(candidates, n + 1, k, payer, env);
      }
    } else if n < |candidates| && env.hashes(n).Hashes? {
      assert FirstRuns(candidates, n, n, payer, env);
    }
  }

  lemma CandidatesAreForCode(manifests: seq<PolicyManifest>)
    ensures forall i :: 0 <= i < |CodePinnedOf(manifests)| ==> ForCode(CodePinnedOf(manifests)[i])
    ensures forall m :: m in CodePinnedOf(manifests) <==> m in manifests && ForCode(m)
  {
  }

  /**
    The first manifest naming the payer is selected. If none does, it is the first of those for code that the payer
    is observed to run, or none exactly when every lookup answered without a match.
   */
  lemma SelectionFits(manifests: seq<PolicyManifest>, payer: string, env: Env)
    ensures forall i :: 0 <= i < |CodePinnedOf(manifests)| ==> ForCode(CodePinnedOf(manifests)[i])
    ensures
      var s, candidates := Select(manifests, NString(payer), env), CodePinnedOf(manifests);
      var named := exists i: nat :: FirstFor(manifests, i, payer);
      && (forall i: nat :: FirstFor(manifests, i, payer) ==> s == Selected(manifests[i], None))
      && (!named && s.Selected? ==> exists k: nat :: FirstRuns(candidates, 0, k, payer, env))
      && (!named ==> forall k: nat :: FirstRuns(candidates, 0, k, payer, env) ==>
            s == Selected(candidates[k], Some(env.hashes(k).hashes)))
      && (s.NoManifest? <==>
            && (forall i :: 0 <= i < |manifests| ==> manifests[i].smartAccount != Some(payer))
            && forall k: nat :: k < |candidates| ==> Passed(candidates, k, payer, env))
  {
    CandidatesAreForCode(manifests);
    FirstNamedIff(manifests, payer);
    FirstRunningIs(CodePinnedOf(manifests), 0, payer, env);
    if n: nat :| n < |manifests| && manifests[n].smartAccount == Some(payer) {
      var i := SomeFirst(manifests, payer, n);
      assert Select(manifests, NString(payer), env) == Selected(manifests[i], None);
    } else {
      assert Select(manifests, NString(payer), env)
             == FirstRunning(CodePinnedOf(manifests), 0, NString(payer), env);
    }
  }

  // ---- The whole verification ----

  /** Every address credential is in the future, and not further than the timeout allows at five seconds a ledger. */
  predicate InWindowAt(entries: seq<AuthEntry>, current: int, timeoutSeconds: int) {
    forall i :: 0 <= i < |entries| && entries[i].credentials.AddressCredentials? ==>
      && current < entries[i].credentials.expiration
      && 5 * (entries[i].credentials.expiration - current - 1) < timeoutSeconds
  }

  lemma {:induction false} ExpirationsAre(entries: seq<AuthEntry>)
    ensures forall x :: x in Expirations(entries) <==>
      exists i :: && 0 <= i < |entries| && entries[i].credentials.AddressCredentials?
                  && x == entries[i].credentials.expiration
    decreases |entries|
  {
    if entries != [] {
      ExpirationsAre(entries[..|entries| - 1]);
      assert entries == entries[..|entries| - 1] + [entries[|entries| - 1]];
    }
  }

  lemma {:induction false} FirstExpiryIff(expirations: seq<int>, current: int, timeoutSeconds: int)
    ensures FirstExpiry(expirations, current, timeoutSeconds).InWindow?
      <==> forall x :: x in expirations ==> CheckExpiry(x, current, timeoutSeconds).InWindow?
    decreases |expirations|
  {
    if expirations != [] {
      FirstExpiryIff(expirations[1..], current, timeoutSeconds);
      assert expirations == [expirations[0]] + expirations[1..];
    }
  }

  lemma WindowPassesIff(entries: seq<AuthEntry>, ledger: LedgerReply, timeoutSeconds: int, payer: Native)
    ensures WindowError(entries, ledger, timeoutSeconds, payer).None?
      <==> ledger.Latest? && InWindowAt(entries, ledger.sequence, timeoutSeconds)
  {
    if ledger.Latest? {
      ExpirationsAre(entries);
      FirstExpiryIff(Expirations(entries), ledger.sequence, timeoutSeconds);
      forall x ensures CheckExpiry(x, ledger.sequence, timeoutSeconds).InWindow? <==>
          ledger.sequence < x && 5 * (x - ledger.sequence - 1) < timeoutSeconds
      {
        WindowInSeconds(x, ledger.sequence, timeoutSeconds);
      }
      if InWindowAt(entries, ledger.sequence, timeoutSeconds) {
        forall x | x in Expirations(entries) ensures CheckExpiry(x, ledger.sequence, timeoutSeconds).InWindow? {
          var i :| 0 <= i < |entries| && entries[i].credentials.AddressCredentials?
                   && x == entries[i].credentials.expiration;
        }
      } else {
        var i :| 0 <= i < |entries| && entries[i].credentials.AddressCredentials?
                 && !CheckExpiry(entries[i].credentials.expiration, ledger.sequence, timeoutSeconds).InWindow?;
        assert entries[i].credentials.expiration in Expirations(entries);
      }
    }
  }

  /** The policy-aware verification the relayer asks for under a selected manifest. */
  function PolicyDecision(p: Params, env: Env, address: Option<string>, payer: string, s: Selection)
    : PolicyVerify.Decision
    requires s.Selected? && HashesFor(s.observed, env).Hashes? && env.simulation.Simulated?
  {
    PolicyVerify.VerifyPolicyAwarePayment(
      PolicyRequest(p, s.manifest, payer, HashesFor(s.observed, env).hashes, env.simulation.events, address, env))
  }

  /**
    Under a manifest the policy-aware verification approves, with a recipient and a delegate that are not the
    facilitator's; without one the upstream validator accepts.
   */
  ghost predicate EventsAdmitted(p: Params, c: Config, env: Env, address: Option<string>, payer: string, amount: int)
    requires env.simulation.Simulated?
  {
    match Select(c.manifests, NString(payer), env)
    case SelectionThrew => false
    case NoManifest =>
      UpstreamEvents.UpstreamAccepts(env.simulation.events, ExpectedTransfer(p.req, payer, amount))
    case Selected(m, observed) =>
      && HashesFor(observed, env).Hashes?
      && var d := PolicyDecision(p, env, address, payer, Selected(m, observed));
      && d.Approved?
      && forall a :: Own(a, address, c) ==> p.req.payTo != a && d.delegate != a
  }

  /** The paid fee is no less than the simulated minimum and no more than the configured cap, where those are given. */
  predicate FeeFits(fee: string, minimum: Option<string>, cap: Option<string>) {
    fee == "" || (
      && (minimum == None || minimum == Some("")
          || (BigIntOf(fee).Some? && BigIntOf(minimum.value).Some?
              && BigIntOf(minimum.value).value <= BigIntOf(fee).value))
      && (cap == None || cap == Some("")
          || (BigIntOf(fee).Some? && BigIntOf(cap.value).Some? && BigIntOf(fee).value <= BigIntOf(cap.value).value)))
  }

  predicate ChainAdmits(p: Params, c: Config, env: Env, entries: seq<AuthEntry>)
    requires p.tx.Some?
  {
    && env.ledger.Latest? && InWindowAt(entries, env.ledger.sequence, p.req.maxTimeoutSeconds)
    && env.simulation.Simulated? && env.simulation.events != []
    && FeeFits(p.tx.value.fee, env.simulation.minResourceFee, c.maxFee)
  }

  /** An x402 version 2 exact payment, offered and required on the configured network, in a configured asset. */
  predicate RequestIsFor(p: Params, c: Config) {
    && p.version == 2 && p.accepted.Some? && p.accepted.value.scheme == "exact" && p.req.scheme == "exact"
    && (c.network == "stellar:pubnet" || c.network == "stellar:testnet")
    && p.accepted.value.network == c.network && p.req.network == c.network
    && exists i :: 0 <= i < |c.assets| && c.assets[i] == p.req.asset
  }

  /** The relayer serves the configured network: every relayer network but "testnet" is the public one. */
  predicate OnNetwork(relayerNetwork: string, network: string) {
    || (relayerNetwork == "testnet" && network == "stellar:testnet")
    || (relayerNetwork != "testnet" && network == "stellar:pubnet")
  }

  /**
    Neither the operation nor the transaction has one of the facilitator's addresses as its source. An operation
    without a source counts as having the address of a relayer without one.
   */
  predicate SourceApart(op: Operation, tx: Transaction, address: Option<string>, c: Config)
    requires op.InvokeHostFunction?
  {
    && op.source != address && (address.Some? ==> tx.source != address.value)
    && (c.fundRelayerAddress.Some? && c.fundRelayerAddress.value != "" ==>
          op.source != c.fundRelayerAddress && tx.source != c.fundRelayerAddress.value)
  }

  ghost predicate Admissible(p: Params, c: Config, env: Env, payer: string) {
    && RequestIsFor(p, c)
    && env.relayer.RelayerInfo? && OnNetwork(env.relayer.network, c.network)
    && p.tx.Some? && p.tx.value.signatures == 0 && |p.tx.value.operations| == 1
    && p.req.amount != "" && BigIntOf(p.req.amount).Some?
    && var amount, address, op := BigIntOf(p.req.amount).value, env.relayer.address, p.tx.value.operations[0];
    && RequiredOperation(op, p.req, payer, amount)
    && SparesOwn(op.auth, payer, address, c)
    && SourceApart(op, p.tx.value, address, c)
    && ChainAdmits(p, c, env, op.auth)
    && EventsAdmitted(p, c, env, address, payer, amount)
  }

  lemma RequestPassesIff(p: Params, c: Config)
    ensures RequestError(p, c).None? <==> RequestIsFor(p, c)
  {
  }

  lemma OperationPassesIff(tx: Option<Transaction>, req: Requirements)
    ensures OperationError(tx, req).None? <==>
      && tx.Some? && |tx.value.operations| == 1
      && tx.value.operations[0].InvokeHostFunction? && tx.value.operations[0].func.InvokeContract?
      && var call := tx.value.operations[0].func;
      && call.contract == req.asset && call.fn == "transfer" && |call.args| == 3
  {
  }

  lemma TransferPassesIff(args: seq<ScVal>, req: Requirements, protected: seq<string>)
    requires |args| == 3
    ensures TransferError(args, req, protected).None? <==>
      && !IsOneOf(ToNative(args[0]), protected)
      && ToNative(args[1]) == NString(req.payTo)
      && req.amount != "" && BigIntOf(req.amount).Some?
      && ToNative(args[2]) == NBig(BigIntOf(req.amount).value)
    ensures TransferError(args, req, protected).Some? ==> TransferError(args, req, protected).value.Unverified?
  {
  }

  lemma OwnAreKeptOut(entries: seq<AuthEntry>, payer: string, address: Option<string>, c: Config)
    ensures SparesOwn(entries, payer, address, c) <==>
      payer !in Protected(address, c) && forall a :: a in Protected(address, c) ==> !HasEntryOf(entries, a)
  {
    forall a ensures a in Protected(address, c) <==> Own(a, address, c) {
      ProtectedAreOwn(a, address, c);
    }
  }

  lemma AuthPassesIff(p: Params, c: Config, payer: string, address: Option<string>)
    requires OperationError(p.tx, p.req).None? && payer !in Protected(address, c)
    ensures AuthError(p, c, NString(payer), address).None? <==>
      && p.tx.value.signatures == 0
      && AllPlainSigned(CallOf(p).auth) && HasEntryOf(CallOf(p).auth, payer)
      && SparesOwn(CallOf(p).auth, payer, address, c)
      && SourceApart(CallOf(p), p.tx.value, address, c)
  {
    EntriesPassIff(CallOf(p).auth, payer, Protected(address, c));
    OwnAreKeptOut(CallOf(p).auth, payer, address, c);
  }

  lemma FeePassesIff(fee: string, minimum: Option<string>, cap: Option<string>)
    ensures FeeVerdict(fee, minimum, cap) == Result.Ok(FeeOk) <==> FeeFits(fee, minimum, cap)
  {
  }

  lemma ChainPassesIff(p: Params, c: Config, env: Env, payer: Native)
    requires OperationError(p.tx, p.req).None?
    ensures ChainAdmits(p, c, env, CallOf(p).auth) <==>
      && WindowError(CallOf(p).auth, env.ledger, p.req.maxTimeoutSeconds, payer).None?
      && SimulationError(env.simulation, p.tx.value.fee, c.maxFee, payer).None?
    ensures var w := WindowError(CallOf(p).auth, env.ledger, p.req.maxTimeoutSeconds, payer);
      w.Some? ==> w.value.Unverified?
    ensures var s := SimulationError(env.simulation, p.tx.value.fee, c.maxFee, payer);
      s.Some? ==> s.value.Unverified?
  {
    WindowPassesIff(CallOf(p).auth, env.ledger, p.req.maxTimeoutSeconds, payer);
    SimulationPassesIff(env.simulation, p.tx.value.fee, c.maxFee, payer);
  }

  lemma SimulationPassesIff(simulation: SimulationReply, fee: string, cap: Option<string>, payer: Native)
    ensures SimulationError(simulation, fee, cap, payer).None? <==>
      simulation.Simulated? && simulation.events != [] && FeeFits(fee, simulation.minResourceFee, cap)
    ensures SimulationError(simulation, fee, cap, payer).Some? ==>
      SimulationError(simulation, fee, cap, payer).value.Unverified?
  {
    if simulation.Simulated? {
      FeePassesIff(fee, simulation.minResourceFee, cap);
    }
  }

  lemma EventsPassIff(p: Params, c: Config, env: Env, address: Option<string>, payer: string)
    requires BigIntOf(p.req.amount).Some? && env.simulation.Simulated?
    ensures
      var s := Select(c.manifests, NString(payer), env);
      EventsAdmitted(p, c, env, address, payer, BigIntOf(p.req.amount).value) <==>
        && !s.SelectionThrew?
        && (s.Selected? ==> p.req.payTo !in Protected(address, c))
        && EventDecision(p, c, env, address, payer, s, env.simulation.events) == Verified(payer)
    ensures
      var s := Select(c.manifests, NString(payer), env);
      var d := EventDecision(p, c, env, address, payer, s, env.simulation.events);
      d.Verified? ==> d.payer == payer
  {
    var s := Select(c.manifests, NString(payer), env);
    if s.Selected? {
      ProtectedAreOwn(p.req.payTo, address, c);
      if HashesFor(s.observed, env).Hashes? && PolicyDecision(p, env, address, payer, s).Approved? {
        DelegatePassesIff(PolicyDecision(p, env, address, payer, s), p.req.payTo, address, c);
      }
    }
  }

  lemma DelegatePassesIff(d: PolicyVerify.Decision, payTo: string, address: Option<string>, c: Config)
    requires d.Approved?
    ensures (forall a :: Own(a, address, c) ==> payTo != a && d.delegate != a)
      <==> payTo !in Protected(address, c) && d.delegate !in Protected(address, c)
  {
    ProtectedAreOwn(payTo, address, c);
    ProtectedAreOwn(d.delegate, address, c);
  }

  /** A payment is verified for a payer exactly when it is admissible. */
  lemma VerifiedIffAdmissible(p: Params, c: Config, env: Env, payer: string)
    ensures Verify(p, c, env) == Verified(payer) <==> Admissible(p, c, env, payer)
  {
    RequestPassesIff(p, c);
    OperationPassesIff(p.tx, p.req);
    if RequestError(p, c).None? && env.relayer.RelayerInfo? && OperationError(p.tx, p.req).None? {
      var address, args := env.relayer.address, CallOf(p).func.args;
      var from := ToNative(args[0]);
      TransferPassesIff(args, p.req, Protected(address, c));
      ChainPassesIff(p, c, env, from);
      if from.NString? {
        OwnAreKeptOut(CallOf(p).auth, from.text, address, c);
        if from.text !in Protected(address, c) {
          AuthPassesIff(p, c, from.text, address);
        }
        if BigIntOf(p.req.amount).Some? && env.simulation.Simulated? {
          EventsPassIff(p, c, env, address, from.text);
        }
      }
    }
  }

  // ---- Consequences ----

  /** Every verified payment's simulation holds exactly one transfer event, the required one, on either path. */
  lemma VerifiedTransfersOnce(p: Params, c: Config, env: Env, payer: string)
    requires Verify(p, c, env) == Verified(payer)
    ensures env.simulation.Simulated? && BigIntOf(p.req.amount).Some?
    ensures UpstreamEvents.UpstreamAccepts(
              UpstreamEvents.WithoutPolicyEvents(env.simulation.events),
              ExpectedTransfer(p.req, payer, BigIntOf(p.req.amount).value))
  {
    VerifiedIffAdmissible(p, c, env, payer);
    var events, amount := env.simulation.events, BigIntOf(p.req.amount).value;
    var s := Select(c.manifests, NString(payer), env);
    if s.NoManifest? {
      SoleTransferStays(events, ExpectedTransfer(p.req, payer, amount));
    } else {
      var d := PolicyDecision(p, env, env.relayer.address, payer, s);
      var r := PolicyRequest(
        p, s.manifest, payer, HashesFor(s.observed, env).hashes, events, env.relayer.address, env);
      ApprovedTransfersOnce(r, amount);
    }
  }

  lemma ApprovedTransfersOnce(r: PolicyVerify.Request, amount: int)
    requires PolicyVerify.VerifyPolicyAwarePayment(r).Approved?
    requires BigIntOf(r.req.amount) == Some(amount)
    ensures UpstreamEvents.UpstreamAccepts(
              UpstreamEvents.WithoutPolicyEvents(r.events), ExpectedTransfer(r.req, r.payer, amount))
  {
    var d := PolicyVerify.VerifyPolicyAwarePayment(r);
    NumeralsReadDecimally(r.req.amount);
    var x := PolicyVerify.ExpectedOf(PolicyVerify.SpecOf(r), d.ruleId);
    UpstreamEvents.PolicyExtendsUpstream(r.events, x, r.manifest, r.hashes);
    RuleIsIrrelevant(UpstreamEvents.WithoutPolicyEvents(r.events), x, ExpectedTransfer(r.req, r.payer, amount));
  }

  lemma RuleIsIrrelevant(events: seq<DiagnosticEvent>, x: PolicyEvents.Expected, y: PolicyEvents.Expected)
    requires x.(contextRuleId := 0) == y.(contextRuleId := 0)
    ensures UpstreamEvents.UpstreamVerdict(events, x) == UpstreamEvents.UpstreamVerdict(events, y)
  {
  }

  lemma SoleTransferStays(events: seq<DiagnosticEvent>, x: PolicyEvents.Expected)
    requires UpstreamEvents.UpstreamAccepts(events, x)
    ensures UpstreamEvents.UpstreamAccepts(UpstreamEvents.WithoutPolicyEvents(events), x)
  {
    UpstreamEvents.UpstreamIffSoleEvent(events, x);
    UpstreamEvents.UpstreamIffSoleEvent(UpstreamEvents.WithoutPolicyEvents(events), x);
    TransferEventsStay(events);
  }

  lemma {:induction false} TransferEventsStay(events: seq<DiagnosticEvent>)
    requires forall e :: e in UpstreamEvents.ContractEvents(events) ==> PolicyEvents.TransferNamed(e)
    ensures UpstreamEvents.WithoutPolicyEvents(events) == events
    decreases |events|
  {
    if events != [] {
      var front, last := events[..|events| - 1], events[|events| - 1];
      assert PolicyEvents.IsContractEvent(last) ==> last in UpstreamEvents.ContractEvents(events);
      assert forall e :: e in UpstreamEvents.ContractEvents(front) ==> e in UpstreamEvents.ContractEvents(events);
      TransferEventsStay(front);
      assert events == front + [last];
    }
  }

  /**
    The source check compares optional addresses: a relayer without one verifies no operation without a source of
    its own.
   */
  lemma NamelessRelayerRefuses(p: Params, c: Config, env: Env, payer: string)
    requires env.relayer.RelayerInfo? && env.relayer.address.None?
    requires p.tx.Some? && |p.tx.value.operations| == 1
    requires p.tx.value.operations[0].InvokeHostFunction? && p.tx.value.operations[0].source.None?
    ensures Verify(p, c, env) != Verified(payer)
  {
    VerifiedIffAdmissible(p, c, env, payer);
  }

  /**
    The facilitator never pays, signs or, under a manifest, takes part: for each of its configured addresses, a
    verified payment has another payer, no entry of that address, and under a selected manifest another recipient
    and another delegate.
   */
  lemma VerifiedSparesOwn(p: Params, c: Config, env: Env, payer: string, a: string)
    requires Verify(p, c, env) == Verified(payer)
    requires a != "" && env.relayer.RelayerInfo? && (env.relayer.address == Some(a) || c.fundRelayerAddress == Some(a))
    ensures payer != a && p.tx.Some? && |p.tx.value.operations| == 1 && p.tx.value.operations[0].InvokeHostFunction?
    ensures forall e :: e in p.tx.value.operations[0].auth && e.credentials.AddressCredentials? ==>
      e.credentials.address != a
    ensures p.tx.value.source != a && p.tx.value.operations[0].source != Some(a)
    ensures
      var s := Select(c.manifests, NString(payer), env);
      s.Selected? ==>
        && HashesFor(s.observed, env).Hashes? && env.simulation.Simulated?
        && p.req.payTo != a
        && PolicyDecision(p, env, env.relayer.address, payer, s).Approved?
        && PolicyDecision(p, env, env.relayer.address, payer, s).delegate != a
  {
    VerifiedIffAdmissible(p, c, env, payer);
    assert Own(a, env.relayer.address, c);
    forall e | e in p.tx.value.operations[0].auth && e.credentials.AddressCredentials?
      ensures e.credentials.address != a
    {
      assert !HasEntryOf(p.tx.value.operations[0].auth, a);
    }
  }

  /** A payer some manifest names is verified only through a policy-aware approval under the first naming it. */
  lemma ManifestPayersNeedApproval(p: Params, c: Config, env: Env, payer: string, i: nat)
    requires Verify(p, c, env) == Verified(payer) && FirstFor(c.manifests, i, payer)
    ensures env.relayer.RelayerInfo? && env.simulation.Simulated? && env.hashes(0).Hashes?
    ensures PolicyVerify.VerifyPolicyAwarePayment(
              PolicyRequest(p, c.manifests[i], payer, env.hashes(0).hashes, env.simulation.events, env.relayer.address,
                            env)).Approved?
  {
    VerifiedIffAdmissible(p, c, env, payer);
    SelectionFits(c.manifests, payer, env);
  }

  /**
    A payer that no manifest names, but that is observed to run the code of one, is verified only through a
    policy-aware approval under the first such manifest, against the code hashes that showed it.
   */
  lemma CodePayersNeedApproval(p: Params, c: Config, env: Env, payer: string, k: nat)
    requires Verify(p, c, env) == Verified(payer)
    requires forall i :: 0 <= i < |c.manifests| ==> c.manifests[i].smartAccount != Some(payer)
    requires
      var candidates := CodePinnedOf(c.manifests);
      (forall i :: 0 <= i < |candidates| ==> ForCode(candidates[i])) && FirstRuns(candidates, 0, k, payer, env)
    ensures env.relayer.RelayerInfo? && env.simulation.Simulated?
    ensures PolicyVerify.VerifyPolicyAwarePayment(
              PolicyRequest(p, CodePinnedOf(c.manifests)[k], payer, env.hashes(k).hashes, env.simulation.events,
                            env.relayer.address, env)).Approved?
  {
    VerifiedIffAdmissible(p, c, env, payer);
    SelectionFits(c.manifests, payer, env);
  }

  /**
    A relayer without an address looks up no installed rule: under a manifest that pins none it verifies nothing,
    and any other relayer only what the looked-up rule allows.
   */
  lemma UnpinnedRulesAreLookedUp(p: Params, c: Config, env: Env, payer: string)
    requires Verify(p, c, env) == Verified(payer)
    requires Select(c.manifests, NString(payer), env).Selected?
    requires Select(c.manifests, NString(payer), env).manifest.expectedRuleId.None?
    ensures env.relayer.RelayerInfo? && env.relayer.address != None && env.relayer.address != Some("")
    ensures exists ruleId: u32 ::
      env.lookUp(ruleId, payer) == PolicyVerify.Installed(PolicyVerify.ObservedRule(ruleId, p.req.asset, p.req.payTo))
  {
    VerifiedIffAdmissible(p, c, env, payer);
    var s := Select(c.manifests, NString(payer), env);
    var r := PolicyRequest(
      p, s.manifest, payer, HashesFor(s.observed, env).hashes, env.simulation.events, env.relayer.address, env);
    PolicyVerify.ApprovedSpeaksOfOnePayment(r);
  }

  /**
    Under production manifests, a payment verified through one leaves exactly two relevant events in its simulation:
    the required transfer, and the spending-limit event of the pinned contract with the pinned code.
   */
  lemma ProductionPaymentsLeaveTwoEvents(p: Params, c: Config, env: Env, payer: string)
    requires Verify(p, c, env) == Verified(payer)
    requires Select(c.manifests, NString(payer), env).Selected?
    requires Production(Select(c.manifests, NString(payer), env).manifest)
    ensures env.simulation.Simulated? && PolicyVerify.PositiveAmount(p.req.amount)
    ensures
      var s := Select(c.manifests, NString(payer), env);
      && HashesFor(s.observed, env).Hashes?
      && exists ruleId: u32 :: PolicyEventTheorems.ExactPair(
           multiset(PolicyEventTheorems.Relevants(env.simulation.events)),
           PolicyEvents.Expected(p.req.asset, payer, p.req.payTo, Decimal.Parse(p.req.amount), ruleId),
           s.manifest, HashesFor(s.observed, env).hashes)
  {
    VerifiedIffAdmissible(p, c, env, payer);
    var s := Select(c.manifests, NString(payer), env);
    ProductionApprovalLeavesTwo(PolicyRequest(
      p, s.manifest, payer, HashesFor(s.observed, env).hashes, env.simulation.events, env.relayer.address, env));
  }

  lemma ProductionApprovalLeavesTwo(r: PolicyVerify.Request)
    requires PolicyVerify.VerifyPolicyAwarePayment(r).Approved? && Production(r.manifest)
    ensures PolicyVerify.PositiveAmount(r.req.amount)
    ensures exists ruleId: u32 :: PolicyEventTheorems.ExactPair(
      multiset(PolicyEventTheorems.Relevants(r.events)),
      PolicyEvents.Expected(r.req.asset, r.payer, r.req.payTo, Decimal.Parse(r.req.amount), ruleId),
      r.manifest, r.hashes)
  {
    var x := PolicyVerify.ExpectedOf(PolicyVerify.SpecOf(r), PolicyVerify.VerifyPolicyAwarePayment(r).ruleId);
    PolicyEventTheorems.ProductionLeavesTwoEvents(r.events, x, r.manifest, r.hashes);
  }
}
