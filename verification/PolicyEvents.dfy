/** The policy-aware validator of simulation events: one required transfer, and approved spending-limit events. */
module PolicyEvents {
  import opened Wrappers
  import opened Soroban
  import opened Manifest

  datatype Expected = Expected(token: string, from: string, to: string, amount: int, contextRuleId: int)

  /** ThrewOnNullContext is the exception a null call inside the policy context raises. */
  datatype EventReason =
    | EventMissingContractId
    | EventNotTransfer
    | TransferMissing
    | TransferDuplicate
    | TransferMismatch
    | PolicyUnapproved
    | PolicyMalformed
    | PolicyContextMismatch
    | PolicyDuplicate
    | ManifestMismatch
    | ThrewOnNullContext

  /** The approved list holds the contract of each approved policy event, in order. */
  datatype EventVerdict = Accepted(approved: seq<string>) | Rejected(reason: EventReason)

  // ---- Events one by one ----

  predicate IsContractEvent(e: DiagnosticEvent) {
    e.Event? && e.kind.ContractEvent?
  }

  /** An event the validator looks at; system and diagnostic events are skipped. */
  predicate Relevant(e: DiagnosticEvent) {
    e.Malformed? || IsContractEvent(e)
  }

  predicate Parsable(e: DiagnosticEvent) {
    IsContractEvent(e) && e.inSuccessfulCall && e.contractId.Some?
  }

  /** A parsed contract event keeps its contract, topics and data; its name is its first topic if that is a symbol. */
  type ContractEventRecord = e: DiagnosticEvent | Parsable(e)
    witness Event(ContractEvent, true, Some(""), [], Void)

  function NameOf(e: DiagnosticEvent): Option<string> {
    if e.Event? && |e.topics| > 0 && e.topics[0].Symbol? then Some(e.topics[0].name) else None
  }

  predicate TransferNamed(e: DiagnosticEvent): (named: bool)
    ensures named <==> e.Event? && e.topics != [] && e.topics[0] == Symbol("transfer")
  {
    NameOf(e) == Some("transfer")
  }

  function ParseError(e: DiagnosticEvent): Option<EventReason> {
    if e.Malformed? then Some(EventNotTransfer)
    else if !e.kind.ContractEvent? then None
    else if !e.inSuccessfulCall then Some(EventNotTransfer)
    else if e.contractId.None? then Some(EventMissingContractId)
    else None
  }

  datatype TransferRecord = TransferRecord(token: string, from: string, to: string, amount: int)

  function AmountOf(data: ScVal): Option<int> {
    match ToNative(data)
    case NBig(n) => Some(n)
    case NNumber(n) => Some(n)
    case _ => None
  }

  function ParseTransfer(e: ContractEventRecord): Option<TransferRecord> {
    if !TransferNamed(e) || |e.topics| < 3 || !e.topics[1].Address? || !e.topics[2].Address? || AmountOf(e.data).None?
    then None
    else Some(TransferRecord(e.contractId.value, e.topics[1].strkey, e.topics[2].strkey, AmountOf(e.data).value))
  }

  /** A transfer event of the token from the payer to the recipient; further topics do not matter. */
  predicate RequiredTransfer(e: ContractEventRecord, x: Expected): (required: bool)
    ensures required <==>
      && |e.topics| >= 3 && e.topics[0] == Symbol("transfer")
      && e.topics[1] == Address(x.from) && e.topics[2] == Address(x.to)
      && e.contractId == Some(x.token)
      && (ToNative(e.data) == NBig(x.amount) || ToNative(e.data) == NNumber(x.amount))
  {
    ParseTransfer(e) == Some(TransferRecord(x.token, x.from, x.to, x.amount))
  }

  /** The fields of a symbol-keyed map without repeated keys. */
  function FieldsOf(entries: seq<MapEntry>): Option<map<string, ScVal>> {
    if entries == [] then Some(map[])
    else
      var last := entries[|entries| - 1];
      match FieldsOf(entries[..|entries| - 1])
      case None => None
      case Some(fields) =>
        if !last.key.Symbol? || last.key.name in fields then None else Some(fields[last.key.name := last.val])
  }

  method MapFields(value: ScVal) returns (fields: Option<map<string, ScVal>>)
    ensures fields == if value.Map? then FieldsOf(value.entries) else None
  {
    if !value.Map? {
      return None;
    }
    var entries := value.entries;
    var collected: map<string, ScVal> := map[];
    for i := 0 to |entries|
      invariant FieldsOf(entries[..i]) == Some(collected)
    {
      assert entries[..i + 1][..i] == entries[..i];
      if !entries[i].key.Symbol? || entries[i].key.name in collected {
        RejectedPrefix(entries, i + 1);
        return None;
      }
      collected := collected[entries[i].key.name := entries[i].val];
    }
    assert entries[..|entries|] == entries;
    fields := Some(collected);
  }

  lemma {:induction false} RejectedPrefix(entries: seq<MapEntry>, n: nat)
    requires n <= |entries| && FieldsOf(entries[..n]).None?
    ensures FieldsOf(entries).None?
    decreases |entries|
  {
    if n == |entries| {
      assert entries[..n] == entries;
    } else {
      assert entries[..|entries| - 1][..n] == entries[..n];
      RejectedPrefix(entries[..|entries| - 1], n);
    }
  }

  const SPENDING_LIMIT_KEYS := {"amount", "context", "context_rule_id", "total_spent_in_period"}

  /** The embedded call must be the payment's own transfer. */
  function ContextError(context: Native, x: Expected): Option<EventReason> {
    if !context.NArray? || |context.items| != 2 || context.items[0] != NString("Contract") then Some(PolicyMalformed)
    else if context.items[1] == NNull then Some(ThrewOnNullContext)
    else if ContextIsTransfer(context.items[1], x) then None
    else Some(PolicyContextMismatch)
  }

  predicate ContextIsTransfer(call: Native, x: Expected) {
    && Property(call, "contract") == Some(NString(x.token))
    && Property(call, "fn_name") == Some(NString("transfer"))
    && Property(call, "args") == Some(NArray([NString(x.from), NString(x.to), NBig(x.amount)]))
  }

  function SpendingLimitError(e: ContractEventRecord, x: Expected): Option<EventReason> {
    if NameOf(e) != Some("spending_limit_enforced") || |e.topics| != 2 then Some(PolicyMalformed)
    else if e.topics[1] != Address(x.from) then Some(PolicyContextMismatch)
    else
      var fields := if e.data.Map? then FieldsOf(e.data.entries) else None;
      if fields.None? || fields.value.Keys != SPENDING_LIMIT_KEYS then Some(PolicyMalformed)
      else
        var f := fields.value;
        var amount, rule, total := f["amount"], f["context_rule_id"], f["total_spent_in_period"];
        if !amount.I128? || !rule.U32? || !total.I128? then Some(PolicyMalformed)
        else if ToNative(amount).big != x.amount || rule.word != x.contextRuleId
                || ToNative(total).big < ToNative(amount).big then Some(PolicyContextMismatch)
        else ContextError(ToNative(f["context"]), x)
  }

  // ---- Adapters ----

  /** The first adapter of the contract. */
  function FindAdapter(adapters: seq<Adapter>, contractId: string): (r: Option<Adapter>)
    ensures r.Some? ==>
      exists i :: && 0 <= i < |adapters| && r.value == adapters[i] && adapters[i].contractId == contractId
                  && forall j :: 0 <= j < i ==> adapters[j].contractId != contractId
    ensures r.None? ==> forall a :: a in adapters ==> a.contractId != contractId
  {
    if adapters == [] then None
    else if adapters[0].contractId == contractId then Some(adapters[0])
    else FindAdapter(adapters[1..], contractId)
  }

  function LowerChar(c: char): char {
    if 'A' <= c <= 'Z' then (c as int + 32) as char else c
  }

  function Lower(s: string): (r: string)
    ensures |r| == |s|
  {
    seq(|s|, i requires 0 <= i < |s| => LowerChar(s[i]))
  }

  type WasmHashes = map<string, string>

  /** The same character, or the two cases of one ASCII letter. */
  predicate SameLetter(c: char, d: char) {
    || c == d
    || ('A' <= c <= 'Z' && d as int - c as int == 32)
    || ('A' <= d <= 'Z' && c as int - d as int == 32)
  }

  lemma LoweredAlike(s: string, t: string)
    ensures Lower(s) == Lower(t) <==> |s| == |t| && forall i :: 0 <= i < |t| ==> SameLetter(s[i], t[i])
  {
    if Lower(s) == Lower(t) {
      forall i | 0 <= i < |t| ensures SameLetter(s[i], t[i]) {
        assert Lower(s)[i] == LowerChar(s[i]) && Lower(t)[i] == LowerChar(t[i]);
      }
    }
  }

  /** What a pin means: code was observed for the contract, and its hash is the pin letter by letter, in any case. */
  predicate RunsPinned(hashes: WasmHashes, contractId: string, pin: string) {
    && contractId in hashes && |hashes[contractId]| == |pin| > 0
    && forall i :: 0 <= i < |pin| ==> SameLetter(hashes[contractId][i], pin[i])
  }

  /** A pinned hash, compared without case against the one observed for a contract; absent and empty do not match. */
  predicate HashObserved(hashes: WasmHashes, contractId: string, expected: string): (observed: bool)
    ensures observed <==> RunsPinned(hashes, contractId, expected)
  {
    contractId in hashes && hashes[contractId] != "" && (
      LoweredAlike(hashes[contractId], expected);
      Lower(hashes[contractId]) == Lower(expected))
  }

  predicate CodeIdentityOk(adapter: Adapter, hashes: WasmHashes) {
    Truthy(adapter.expectedWasmHash) ==> HashObserved(hashes, adapter.contractId, adapter.expectedWasmHash.value)
  }

  function EventKey(adapter: Adapter, e: ContractEventRecord): string {
    adapter.kind + ":" + e.contractId.value + ":" + NameOf(e).GetOr("<invalid>")
  }

  // ---- The verdict ----

  function ParseEvents(events: seq<DiagnosticEvent>): Result<seq<ContractEventRecord>, EventReason> {
    if events == [] then Ok([])
    else
      var last := events[|events| - 1];
      var parsed :- ParseEvents(events[..|events| - 1]);
      match ParseError(last)
      case Some(reason) => Err(reason)
      case None => Ok(if IsContractEvent(last) then parsed + [last] else parsed)
  }

  /** The events named transfer, or the others, in order. */
  function Select(transfers: bool, s: seq<ContractEventRecord>): seq<ContractEventRecord> {
    if s == [] then []
    else
      var kept := Select(transfers, s[..|s| - 1]);
      if TransferNamed(s[|s| - 1]) == transfers then kept + [s[|s| - 1]] else kept
  }

  datatype ScanState = ScanState(seen: set<string>, approved: seq<string>)

  /** One policy event against the manifest and the keys seen before it. */
  function ScanOne(
    st: ScanState, e: ContractEventRecord, x: Expected, m: PolicyManifest, hashes: WasmHashes)
    : Result<ScanState, EventReason>
  {
    var found := FindAdapter(m.adapters, e.contractId.value);
    if found.None? then Err(PolicyUnapproved)
    else
      var adapter := found.value;
      if !CodeIdentityOk(adapter, hashes) then Err(ManifestMismatch)
      else if EventKey(adapter, e) in st.seen then Err(PolicyDuplicate)
      else if adapter.kind != OZ_SPENDING_LIMIT then Err(PolicyUnapproved)
      else
        match SpendingLimitError(e, x)
        case Some(reason) => Err(reason)
        case None => Ok(ScanState(st.seen + {EventKey(adapter, e)}, st.approved + [e.contractId.value]))
  }

  function ScanPolicy(
    events: seq<ContractEventRecord>, x: Expected, m: PolicyManifest, hashes: WasmHashes)
    : Result<ScanState, EventReason>
  {
    if events == [] then Ok(ScanState({}, []))
    else
      var st :- ScanPolicy(events[..|events| - 1], x, m, hashes);
      ScanOne(st, events[|events| - 1], x, m, hashes)
  }

  predicate ManifestFits(x: Expected, m: PolicyManifest) {
    && (Truthy(m.smartAccount) ==> m.smartAccount.value == x.from)
    && (m.expectedRuleId.Some? ==> m.expectedRuleId.value == x.contextRuleId)
  }

  predicate RequiredSeen(m: PolicyManifest, approved: seq<string>) {
    forall i :: 0 <= i < |m.adapters| && m.adapters[i].required ==> m.adapters[i].contractId in approved
  }

  function Verdict(
    events: seq<DiagnosticEvent>, x: Expected, m: PolicyManifest, hashes: WasmHashes): EventVerdict
  {
    if !ManifestFits(x, m) then Rejected(ManifestMismatch)
    else
      match ParseEvents(events)
      case Err(reason) => Rejected(reason)
      case Ok(parsed) =>
        var transfers := Select(true, parsed);
        if |transfers| == 0 then Rejected(TransferMissing)
        else if |transfers| != 1 then Rejected(TransferDuplicate)
        else if !RequiredTransfer(transfers[0], x) then Rejected(TransferMismatch)
        else
          match ScanPolicy(Select(false, parsed), x, m, hashes)
          case Err(reason) => Rejected(reason)
          case Ok(st) => if RequiredSeen(m, st.approved) then Accepted(st.approved) else Rejected(PolicyMalformed)
  }

  // ---- The loops ----

  method ParseContractEvents(events: seq<DiagnosticEvent>)
    returns (parsed: Result<seq<ContractEventRecord>, EventReason>)
    ensures parsed == ParseEvents(events)
  {
    var records: seq<ContractEventRecord> := [];
    for i := 0 to |events|
      invariant ParseEvents(events[..i]) == Ok(records)
    {
      assert events[..i + 1][..i] == events[..i];
      var e := events[i];
      if ParseError(e).Some? {
        ErrStays(events, i + 1);
        return Err(ParseError(e).value);
      }
      if IsContractEvent(e) {
        records := records + [e];
      }
    }
    assert events[..|events|] == events;
    parsed := Ok(records);
  }

  lemma {:induction false} ErrStays(events: seq<DiagnosticEvent>, n: nat)
    requires n <= |events| && ParseEvents(events[..n]).Err?
    ensures ParseEvents(events) == ParseEvents(events[..n])
    decreases |events|
  {
    if n == |events| {
      assert events[..n] == events;
    } else {
      assert events[..|events| - 1][..n] == events[..n];
      ErrStays(events[..|events| - 1], n);
    }
  }

  method ScanPolicyEvents(events: seq<ContractEventRecord>, x: Expected, m: PolicyManifest, hashes: WasmHashes)
    returns (result: Result<ScanState, EventReason>)
    ensures result == ScanPolicy(events, x, m, hashes)
  {
    var seen: set<string> := {};
    var approved: seq<string> := [];
    for i := 0 to |events|
      invariant ScanPolicy(events[..i], x, m, hashes) == Ok(ScanState(seen, approved))
    {
      assert events[..i + 1][..i] == events[..i];
      var step := ScanOne(ScanState(seen, approved), events[i], x, m, hashes);
      if step.Err? {
        ScanErrStays(events, i + 1, x, m, hashes);
        return step;
      }
      seen := step.value.seen;
      approved := step.value.approved;
    }
    assert events[..|events|] == events;
    result := Ok(ScanState(seen, approved));
  }

  lemma {:induction false} ScanErrStays(
    events: seq<ContractEventRecord>, n: nat, x: Expected, m: PolicyManifest, hashes: WasmHashes)
    requires n <= |events| && ScanPolicy(events[..n], x, m, hashes).Err?
    ensures ScanPolicy(events, x, m, hashes) == ScanPolicy(events[..n], x, m, hashes)
    decreases |events|
  {
    if n == |events| {
      assert events[..n] == events;
    } else {
      assert events[..|events| - 1][..n] == events[..n];
      ScanErrStays(events[..|events| - 1], n, x, m, hashes);
    }
  }

  method ValidateSimulationEvents(
    events: seq<DiagnosticEvent>, x: Expected, m: PolicyManifest, hashes: WasmHashes) returns (verdict: EventVerdict)
    ensures verdict == Verdict(events, x, m, hashes)
  {
    if !ManifestFits(x, m) {
      return Rejected(ManifestMismatch);
    }
    var parsed := ParseContractEvents(events);
    if parsed.Err? {
      return Rejected(parsed.error);
    }
    var transfers := Select(true, parsed.value);
    if |transfers| == 0 {
      return Rejected(TransferMissing);
    }
    if |transfers| != 1 {
      return Rejected(TransferDuplicate);
    }
    if !RequiredTransfer(transfers[0], x) {
      return Rejected(TransferMismatch);
    }
    var scan := ScanPolicyEvents(Select(false, parsed.value), x, m, hashes);
    if scan.Err? {
      return Rejected(scan.error);
    }
    var complete := CheckRequired(m, scan.value.approved);
    verdict := if complete then Accepted(scan.value.approved) else Rejected(PolicyMalformed);
  }

  method CheckRequired(m: PolicyManifest, approved: seq<string>) returns (complete: bool)
    ensures complete == RequiredSeen(m, approved)
  {
    for i := 0 to |m.adapters|
      invariant forall j :: 0 <= j < i && m.adapters[j].required ==> m.adapters[j].contractId in approved
    {
      if m.adapters[i].required && m.adapters[i].contractId !in approved {
        return false;
      }
    }
    return true;
  }
}
