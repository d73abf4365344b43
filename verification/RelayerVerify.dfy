/** The relayer plugin's verification: ordered checks over the request, the configuration and the RPC replies. */
module RelayerVerify {
  import opened Wrappers
  import opened Decimal
  import opened JsText
  import opened X402
  import opened Soroban
  import opened Manifest
  import opened Authorization
  import opened PaymentWindow
  import opened VerifyReasons
  import PolicyEvents
  import PolicyVerify
  import UpstreamEvents

  // ---- Inputs ----

  datatype Config = Config(
    network: string,
    assets: seq<string>,
    fundRelayerAddress: Option<string>,
    maxFee: Option<string>,
    manifests: seq<PolicyManifest>)

  /** A decoded request; an absent, empty or undecodable transaction is None. */
  datatype Params = Params(
    version: int,
    accepted: Option<Requirements>,
    req: Requirements,
    tx: Option<Transaction>)

  datatype RelayerReply = RelayerInfo(network: string, address: Option<string>) | RelayerThrew
  datatype HashReply = Hashes(hashes: PolicyEvents.WasmHashes) | HashesThrew
  datatype LedgerReply = Latest(sequence: int) | LedgerFailed | LedgerThrew
  datatype SimulationReply =
    | Simulated(minResourceFee: Option<string>, events: seq<DiagnosticEvent>)
    | SimulationRejected
    | SimulationThrew

  /** What the network answers during one verification; code-hash lookups are numbered in the order they are made. */
  datatype Env = Env(
    relayer: RelayerReply,
    hashes: nat -> HashReply,
    ledger: LedgerReply,
    simulation: SimulationReply,
    lookUp: (u32, string) -> PolicyVerify.RuleReply)

  datatype Verification = Verified(payer: string) | Unverified(reason: VerifyReason, named: Option<Native>)

  const UNEXPECTED := Unverified(UnexpectedVerifyError, None)

  // ---- Request and operation ----

  function StellarNetworkOf(relayerNetwork: string): string {
    if relayerNetwork == "testnet" then "stellar:testnet" else "stellar:pubnet"
  }

  function RequestError(p: Params, c: Config): Option<VerifyReason> {
    if p.version != 2 || p.accepted.None? then Some(InvalidVersion)
    else if p.accepted.value.scheme != "exact" || p.req.scheme != "exact" then Some(InvalidScheme)
    else if p.req.network !in {"stellar:pubnet", "stellar:testnet"} then Some(InvalidNetwork)
    else if p.accepted.value.network != p.req.network || p.accepted.value.network != c.network then Some(InvalidNetwork)
    else if p.req.asset !in c.assets then Some(UnsupportedAsset)
    else None
  }

  /** The transaction's single contract call of the required token's transfer. */
  function OperationError(tx: Option<Transaction>, req: Requirements): Option<VerifyReason> {
    if tx.None? then Some(VerifyReason.Malformed)
    else if |tx.value.operations| != 1 || !tx.value.operations[0].InvokeHostFunction?
            || !tx.value.operations[0].func.InvokeContract? then Some(WrongOperation)
    else
      var call := tx.value.operations[0].func;
      if call.contract != req.asset then Some(WrongAsset)
      else if call.fn != "transfer" then Some(WrongFunctionName)
      else if |call.args| != 3 then Some(WrongFunctionArgs)
      else None
  }

  /** The configured addresses of the facilitator itself. */
  function Protected(address: Option<string>, c: Config): seq<string> {
    (if Truthy(address) then [address.value] else []) +
    (if Truthy(c.fundRelayerAddress) then [c.fundRelayerAddress.value] else [])
  }

  predicate IsOneOf(v: Native, addresses: seq<string>) {
    v.NString? && v.text in addresses
  }

  /** Payer, recipient and amount as native values; None when all is well. */
  function TransferError(args: seq<ScVal>, req: Requirements, protected: seq<string>): Option<Verification>
    requires |args| == 3
  {
    var from := ToNative(args[0]);
    if IsOneOf(from, protected) then Some(Unverified(UnsafeFromAddress, Some(from)))
    else if ToNative(args[1]) != NString(req.payTo) then Some(Unverified(WrongRecipient, Some(from)))
    else if req.amount == "" then Some(Unverified(WrongAmount, Some(from)))
    else
      match BigIntOf(req.amount)
      case None => Some(UNEXPECTED)
      case Some(n) => if ToNative(args[2]) != NBig(n) then Some(Unverified(WrongAmount, Some(from))) else None
  }

  // ---- Manifest selection ----

  datatype Selection =
    | Selected(manifest: PolicyManifest, observed: Option<PolicyEvents.WasmHashes>)
    | NoManifest
    | SelectionThrew

  predicate NamesPayer(m: PolicyManifest, from: Native) {
    m.smartAccount.Some? && NString(m.smartAccount.value) == from
  }

  function FirstNamed(manifests: seq<PolicyManifest>, from: Native): Option<PolicyManifest> {
    if manifests == [] then None
    else if NamesPayer(manifests[0], from) then Some(manifests[0])
    else FirstNamed(manifests[1..], from)
  }

  predicate CodePinned(m: PolicyManifest) {
    !Truthy(m.smartAccount) && Truthy(m.smartAccountWasmHash)
  }

  function CodePinnedOf(manifests: seq<PolicyManifest>): (r: seq<PolicyManifest>)
    ensures forall i :: 0 <= i < |r| ==> CodePinned(r[i])
    ensures forall m :: m in r <==> m in manifests && CodePinned(m)
  {
    if manifests == [] then []
    else if CodePinned(manifests[0]) then [manifests[0]] + CodePinnedOf(manifests[1..])
    else CodePinnedOf(manifests[1..])
  }

  predicate RunsPinnedCode(m: PolicyManifest, from: Native, hashes: PolicyEvents.WasmHashes)
    requires CodePinned(m)
  {
    from.NString? && PolicyEvents.HashObserved(hashes, from.text, m.smartAccountWasmHash.value)
  }

  /** The first candidate from position n on whose pinned code the payer is observed to run. */
  function FirstRunning(candidates: seq<PolicyManifest>, n: nat, from: Native, env: Env): Selection
    requires forall i :: 0 <= i < |candidates| ==> CodePinned(candidates[i])
    decreases |candidates| - n
  {
    if n >= |candidates| then NoManifest
    else
      match env.hashes(n)
      case HashesThrew => SelectionThrew
      case Hashes(hashes) =>
        if RunsPinnedCode(candidates[n], from, hashes) then Selected(candidates[n], Some(hashes))
        else FirstRunning(candidates, n + 1, from, env)
  }

  function Select(manifests: seq<PolicyManifest>, from: Native, env: Env): Selection {
    match FirstNamed(manifests, from)
    case Some(m) => Selected(m, None)
    case None => FirstRunning(CodePinnedOf(manifests), 0, from, env)
  }

  method SelectManifest(manifests: seq<PolicyManifest>, from: Native, env: Env) returns (selection: Selection)
    ensures selection == Select(manifests, from, env)
  {
    var named := FirstNamed(manifests, from);
    if named.Some? {
      return Selected(named.value, None);
    }
    var candidates := CodePinnedOf(manifests);
    for i := 0 to |candidates|
      invariant FirstRunning(candidates, 0, from, env) == FirstRunning(candidates, i, from, env)
    {
      var reply := env.hashes(i);
      if reply.HashesThrew? {
        return SelectionThrew;
      }
      if RunsPinnedCode(candidates[i], from, reply.hashes) {
        return Selected(candidates[i], Some(reply.hashes));
      }
    }
    selection := NoManifest;
  }

  // ---- Authorization entries ----

  function EntryError(e: AuthEntry): Option<VerifyReason> {
    if !e.credentials.AddressCredentials? then Some(UnsupportedCredential)
    else if e.root.subInvocations != [] then Some(HasSubInvocations)
    else None
  }

  function FirstEntryError(entries: seq<AuthEntry>): Option<VerifyReason> {
    if entries == [] then None
    else if EntryError(entries[0]).Some? then EntryError(entries[0])
    else FirstEntryError(entries[1..])
  }

  predicate Names(entries: seq<AuthEntry>, address: string) {
    exists i :: 0 <= i < |entries| && AddressOf(entries[i]) == Some(address)
  }

  function AuthEntriesError(entries: seq<AuthEntry>, protected: seq<string>): Option<VerifyReason> {
    if exists i :: 0 <= i < |protected| && Names(entries, protected[i]) then Some(FacilitatorInAuth)
    else FirstEntryError(entries)
  }

  method ValidateAuthEntries(entries: seq<AuthEntry>, protected: seq<string>) returns (error: Option<VerifyReason>)
    ensures error == AuthEntriesError(entries, protected)
  {
    var addresses := AllAddresses(entries);
    for i := 0 to |protected|
      invariant forall j :: 0 <= j < i ==> !Names(entries, protected[j])
    {
      if protected[i] in addresses {
        return Some(FacilitatorInAuth);
      }
    }
    for i := 0 to |entries|
      invariant FirstEntryError(entries) == FirstEntryError(entries[i..])
    {
      var e := EntryError(entries[i]);
      if e.Some? {
        return e;
      }
    }
    error := None;
  }

  method AllAddresses(entries: seq<AuthEntry>) returns (addresses: seq<string>)
    ensures forall a :: a in addresses <==> Names(entries, a)
  {
    addresses := [];
    for i := 0 to |entries|
      invariant forall a :: a in addresses <==> exists j :: 0 <= j < i && AddressOf(entries[j]) == Some(a)
    {
      if entries[i].credentials.AddressCredentials? {
        addresses := addresses + [entries[i].credentials.address];
      }
    }
  }

  predicate SignedBy(entries: seq<AuthEntry>, address: string) {
    exists i :: 0 <= i < |entries| && AddressOf(entries[i]) == Some(address) && !entries[i].credentials.signature.Void?
  }

  predicate AllSigned(entries: seq<AuthEntry>) {
    forall i :: 0 <= i < |entries| && entries[i].credentials.AddressCredentials? ==>
      !entries[i].credentials.signature.Void?
  }

  method SignedAddresses(entries: seq<AuthEntry>) returns (signed: seq<string>, unsigned: seq<string>)
    ensures forall a :: a in signed <==> SignedBy(entries, a)
    ensures unsigned == [] <==> AllSigned(entries)
  {
    signed, unsigned := [], [];
    for i := 0 to |entries|
      invariant forall a :: a in signed <==> SignedBy(entries[..i], a)
      invariant unsigned == [] <==> AllSigned(entries[..i])
    {
      assert entries[..i + 1] == entries[..i] + [entries[i]];
      SignedSnoc(entries[..i], entries[i]);
      if entries[i].credentials.AddressCredentials? {
        if entries[i].credentials.signature.Void? {
          unsigned := unsigned + [entries[i].credentials.address];
        } else {
          signed := signed + [entries[i].credentials.address];
        }
      }
    }
    assert entries[..|entries|] == entries;
  }

  lemma SignedSnoc(front: seq<AuthEntry>, last: AuthEntry)
    ensures forall a :: SignedBy(front + [last], a) <==> SignedBy(front, a) || SignedBy([last], a)
    ensures AllSigned(front + [last]) <==> AllSigned(front) && AllSigned([last])
  {
    var s := front + [last];
    assert s[|front|] == last && forall i :: 0 <= i < |front| ==> s[i] == front[i];
    forall a ensures SignedBy(s, a) <==> SignedBy(front, a) || SignedBy([last], a) {
      if SignedBy([last], a) {
        assert AddressOf(s[|front|]) == Some(a);
      }
    }
  }

  predicate UnsafeSource(op: Operation, tx: Transaction, address: Option<string>, c: Config)
    requires op.InvokeHostFunction?
  {
    || op.source == address || Some(tx.source) == address
    || (Truthy(c.fundRelayerAddress) && (op.source == c.fundRelayerAddress || Some(tx.source) == c.fundRelayerAddress))
  }

  // ---- Expiry and fees ----

  function Expirations(entries: seq<AuthEntry>): seq<int> {
    if entries == [] then []
    else
      var front := Expirations(entries[..|entries| - 1]);
      var last := entries[|entries| - 1].credentials;
      if last.AddressCredentials? then front + [last.expiration] else front
  }

  method CollectExpirations(entries: seq<AuthEntry>) returns (expirations: seq<int>)
    ensures expirations == Expirations(entries)
  {
    expirations := [];
    for i := 0 to |entries|
      invariant expirations == Expirations(entries[..i])
    {
      assert entries[..i + 1][..i] == entries[..i];
      if entries[i].credentials.AddressCredentials? {
        expirations := expirations + [entries[i].credentials.expiration];
      }
    }
    assert entries[..|entries|] == entries;
  }

  function FirstExpiry(expirations: seq<int>, current: int, timeoutSeconds: int): Expiry {
    if expirations == [] then InWindow
    else
      var first := CheckExpiry(expirations[0], current, timeoutSeconds);
      if first.InWindow? then FirstExpiry(expirations[1..], current, timeoutSeconds) else first
  }

  function ExpiryReason(e: Expiry): Option<VerifyReason> {
    match e
    case InWindow => None
    case AlreadyExpired => Some(VerifyReason.AlreadyExpired)
    case TooFar => Some(ExpirationTooFar)
  }

  /** Both fee bounds over strings as the runtime converts them; Err where a conversion throws. */
  function FeeVerdict(fee: string, minResourceFee: Option<string>, cap: Option<string>): Result<FeeCheck, ()> {
    var paid, least, most := BigIntOf(fee), BigIntOf(minResourceFee.GetOr("")), BigIntOf(cap.GetOr(""));
    if Truthy(minResourceFee) && fee != "" && (paid.None? || least.None?) then Err(())
    else if Truthy(minResourceFee) && fee != "" && paid.value < least.value then Ok(BelowMinimum)
    else if fee != "" && Truthy(cap) && (paid.None? || most.None?) then Err(())
    else if fee != "" && Truthy(cap) && paid.value > most.value then Ok(AboveMaximum)
    else Ok(FeeOk)
  }

  /** On numerals the runtime's bounds are the plain ones. */
  lemma FeeVerdictOnNumerals(fee: string, minResourceFee: Option<string>, cap: Option<string>)
    requires AllDigits(fee) && AllDigits(minResourceFee.GetOr([])) && AllDigits(cap.GetOr([]))
    ensures FeeVerdict(fee, minResourceFee, cap) == Ok(CheckFee(fee, minResourceFee, cap))
  {
    if fee != "" {
      NumeralsReadDecimally(fee);
    }
    if Truthy(minResourceFee) {
      NumeralsReadDecimally(minResourceFee.value);
    }
    if Truthy(cap) {
      NumeralsReadDecimally(cap.value);
    }
  }

  // ---- The decision ----

  function CallOf(p: Params): Operation
    requires OperationError(p.tx, p.req).None?
  {
    p.tx.value.operations[0]
  }

  function AuthError(p: Params, c: Config, from: Native, address: Option<string>): Option<VerifyReason>
    requires OperationError(p.tx, p.req).None?
  {
    var entries := CallOf(p).auth;
    if p.tx.value.signatures > 0 then Some(HasEnvelopeSignatures)
    else if entries == [] then Some(MissingAuthEntries)
    else if AuthEntriesError(entries, Protected(address, c)).Some? then AuthEntriesError(entries, Protected(address, c))
    else if !from.NString? || !SignedBy(entries, from.text) then Some(MissingPayerAuth)
    else if !AllSigned(entries) then Some(UnsignedAuthEntry)
    else if UnsafeSource(CallOf(p), p.tx.value, address, c) then Some(VerifyReason.UnsafeSource)
    else None
  }

  function WindowError(entries: seq<AuthEntry>, ledger: LedgerReply, timeoutSeconds: int, payer: Native)
    : Option<Verification>
  {
    match ledger
    case LedgerThrew => Some(UNEXPECTED)
    case LedgerFailed => Some(Unverified(SimulationFailed, Some(payer)))
    case Latest(current) =>
      match ExpiryReason(FirstExpiry(Expirations(entries), current, timeoutSeconds))
      case Some(reason) => Some(Unverified(reason, Some(payer)))
      case None => None
  }

  function SimulationError(simulation: SimulationReply, fee: string, cap: Option<string>, payer: Native)
    : Option<Verification>
  {
    match simulation
    case SimulationThrew => Some(UNEXPECTED)
    case SimulationRejected => Some(Unverified(SimulationFailed, Some(payer)))
    case Simulated(minResourceFee, events) =>
      match FeeVerdict(fee, minResourceFee, cap)
      case Err(_) => Some(UNEXPECTED)
      case Ok(BelowMinimum) => Some(Unverified(FeeBelowMinimum, Some(payer)))
      case Ok(AboveMaximum) => Some(Unverified(FeeAboveMaximum, Some(payer)))
      case Ok(FeeOk) => if events == [] then Some(Unverified(NoTransferEvents, Some(payer))) else None
  }

  function UpstreamReasonOf(reason: UpstreamEvents.UpstreamReason): VerifyReason {
    match reason
    case NoContractId => VerifyReason.EventMissingContractId
    case NonTransferEvent => VerifyReason.EventNotTransfer
    case _ => UnexpectedBalanceChanges
  }

  /** The transfer the requirements ask of a payer; the upstream validator has no use for a rule. */
  function ExpectedTransfer(req: Requirements, payer: string, amount: int): PolicyEvents.Expected {
    PolicyEvents.Expected(req.asset, payer, req.payTo, amount, 0)
  }

  function NoLookUp(ruleId: u32, payer: string): PolicyVerify.RuleReply {
    PolicyVerify.NotInstalled
  }

  function PolicyRequest(
    p: Params, m: PolicyManifest, payer: string, hashes: PolicyEvents.WasmHashes, events: seq<DiagnosticEvent>,
    address: Option<string>, env: Env): PolicyVerify.Request
  {
    PolicyVerify.Request(
      p.version, p.tx, p.req, events, m, payer, hashes, if Truthy(address) then env.lookUp else NoLookUp)
  }

  /** The hashes the selection observed, or else those of the first lookup. */
  function HashesFor(observed: Option<PolicyEvents.WasmHashes>, env: Env): HashReply {
    if observed.Some? then Hashes(observed.value) else env.hashes(0)
  }

  function EventDecision(
    p: Params, c: Config, env: Env, address: Option<string>, payer: string, selection: Selection,
    events: seq<DiagnosticEvent>): Verification
    requires BigIntOf(p.req.amount).Some?
  {
    match selection
    case SelectionThrew => UNEXPECTED
    case NoManifest => (
      match UpstreamEvents.UpstreamVerdict(events, ExpectedTransfer(p.req, payer, BigIntOf(p.req.amount).value))
      case Some(reason) => Unverified(UpstreamReasonOf(reason), Some(NString(payer)))
      case None => Verified(payer)
    )
    case Selected(m, observed) =>
      match HashesFor(observed, env)
      case HashesThrew => UNEXPECTED
      case Hashes(hashes) =>
        match PolicyVerify.VerifyPolicyAwarePayment(PolicyRequest(p, m, payer, hashes, events, address, env))
        case Threw => UNEXPECTED
        case Refused(_, reason) => Unverified(reason, Some(NString(payer)))
        case Approved(_, delegate, _) =>
          if delegate in Protected(address, c) then Unverified(UnsafePolicyParticipant, Some(NString(payer)))
          else Verified(payer)
  }

  function VerifyTransfer(p: Params, c: Config, env: Env, address: Option<string>): Verification
    requires OperationError(p.tx, p.req).None?
  {
    var args := CallOf(p).func.args;
    var from := ToNative(args[0]);
    if TransferError(args, p.req, Protected(address, c)).Some?
    then TransferError(args, p.req, Protected(address, c)).value
    else
      var selection := Select(c.manifests, from, env);
      if selection.SelectionThrew? then UNEXPECTED
      else if selection.Selected? && p.req.payTo in Protected(address, c)
      then Unverified(UnsafePolicyParticipant, Some(from))
      else if AuthError(p, c, from, address).Some? then Unverified(AuthError(p, c, from, address).value, Some(from))
      else if WindowError(CallOf(p).auth, env.ledger, p.req.maxTimeoutSeconds, from).Some?
      then WindowError(CallOf(p).auth, env.ledger, p.req.maxTimeoutSeconds, from).value
      else if SimulationError(env.simulation, p.tx.value.fee, c.maxFee, from).Some?
      then SimulationError(env.simulation, p.tx.value.fee, c.maxFee, from).value
      else EventDecision(p, c, env, address, from.text, selection, env.simulation.events)
  }

  function Verify(p: Params, c: Config, env: Env): Verification {
    if RequestError(p, c).Some? then Unverified(RequestError(p, c).value, None)
    else if env.relayer.RelayerThrew? then UNEXPECTED
    else if StellarNetworkOf(env.relayer.network) != c.network then Unverified(VerifyNetworkMismatch, None)
    else if OperationError(p.tx, p.req).Some? then Unverified(OperationError(p.tx, p.req).value, None)
    else VerifyTransfer(p, c, env, env.relayer.address)
  }

  /** The first expiration outside the window decides, which is what the scan returns. */
  lemma {:induction false} ScanIsFirst(expirations: seq<int>, current: int, timeoutSeconds: int, i: nat)
    requires i < |expirations|
    requires !CheckExpiry(expirations[i], current, timeoutSeconds).InWindow?
    requires forall j :: 0 <= j < i ==> CheckExpiry(expirations[j], current, timeoutSeconds).InWindow?
    ensures FirstExpiry(expirations, current, timeoutSeconds) == CheckExpiry(expirations[i], current, timeoutSeconds)
    decreases i
  {
    if i > 0 {
      ScanIsFirst(expirations[1..], current, timeoutSeconds, i - 1);
    }
  }

  lemma {:induction false} ScanAllInWindow(expirations: seq<int>, current: int, timeoutSeconds: int)
    requires forall i :: 0 <= i < |expirations| ==> CheckExpiry(expirations[i], current, timeoutSeconds).InWindow?
    ensures FirstExpiry(expirations, current, timeoutSeconds).InWindow?
    decreases |expirations|
  {
    if expirations != [] {
      ScanAllInWindow(expirations[1..], current, timeoutSeconds);
    }
  }

  method CheckWindow(entries: seq<AuthEntry>, ledger: LedgerReply, timeoutSeconds: int, payer: Native)
    returns (error: Option<Verification>)
    ensures error == WindowError(entries, ledger, timeoutSeconds, payer)
  {
    if ledger.LedgerThrew? {
      return Some(UNEXPECTED);
    }
    if ledger.LedgerFailed? {
      return Some(Unverified(SimulationFailed, Some(payer)));
    }
    var expirations := CollectExpirations(entries);
    var verdict := ValidateExpirations(expirations, ledger.sequence, timeoutSeconds);
    if verdict.InWindow? {
      ScanAllInWindow(expirations, ledger.sequence, timeoutSeconds);
      return None;
    }
    ghost var i: nat :|
      && i < |expirations|
      && verdict == CheckExpiry(expirations[i], ledger.sequence, timeoutSeconds)
      && forall j :: 0 <= j < i ==> CheckExpiry(expirations[j], ledger.sequence, timeoutSeconds).InWindow?;
    ScanIsFirst(expirations, ledger.sequence, timeoutSeconds, i);
    error := Some(Unverified(ExpiryReason(verdict).value, Some(payer)));
  }

  method CheckAuth(p: Params, c: Config, from: Native, address: Option<string>) returns (error: Option<VerifyReason>)
    requires OperationError(p.tx, p.req).None?
    ensures error == AuthError(p, c, from, address)
  {
    if p.tx.value.signatures > 0 {
      return Some(HasEnvelopeSignatures);
    }
    var entries := p.tx.value.operations[0].auth;
    if entries == [] {
      return Some(MissingAuthEntries);
    }
    error := ValidateAuthEntries(entries, Protected(address, c));
    if error.Some? {
      return;
    }
    var signed, unsigned := SignedAddresses(entries);
    if !from.NString? || from.text !in signed {
      return Some(MissingPayerAuth);
    }
    if unsigned != [] {
      return Some(UnsignedAuthEntry);
    }
    if UnsafeSource(p.tx.value.operations[0], p.tx.value, address, c) {
      return Some(VerifyReason.UnsafeSource);
    }
    error := None;
  }

  /** The checks in the order they are made, each loop run as written. */
  method VerifyPayment(p: Params, c: Config, env: Env) returns (result: Verification)
    ensures result == Verify(p, c, env)
  {
    if RequestError(p, c).Some? {
      return Unverified(RequestError(p, c).value, None);
    }
    if env.relayer.RelayerThrew? {
      return UNEXPECTED;
    }
    if StellarNetworkOf(env.relayer.network) != c.network {
      return Unverified(VerifyNetworkMismatch, None);
    }
    if OperationError(p.tx, p.req).Some? {
      return Unverified(OperationError(p.tx, p.req).value, None);
    }
    var address := env.relayer.address;
    var op := p.tx.value.operations[0];
    var from := ToNative(op.func.args[0]);
    var bad := TransferError(op.func.args, p.req, Protected(address, c));
    if bad.Some? {
      return bad.value;
    }
    var selection := SelectManifest(c.manifests, from, env);
    if selection.SelectionThrew? {
      return UNEXPECTED;
    }
    if selection.Selected? && p.req.payTo in Protected(address, c) {
      return Unverified(UnsafePolicyParticipant, Some(from));
    }
    var unauthorized := CheckAuth(p, c, from, address);
    if unauthorized.Some? {
      return Unverified(unauthorized.value, Some(from));
    }
    bad := CheckWindow(op.auth, env.ledger, p.req.maxTimeoutSeconds, from);
    if bad.Some? {
      return bad.value;
    }
    bad := SimulationError(env.simulation, p.tx.value.fee, c.maxFee, from);
    if bad.Some? {
      return bad.value;
    }
    result := EventDecision(p, c, env, address, from.text, selection, env.simulation.events);
  }
}
