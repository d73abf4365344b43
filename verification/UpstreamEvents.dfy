/**
  The upstream event validator, used when no policy manifest fits the payer, and how the policy-aware validator
  extends it.
 */
module UpstreamEvents {
  import opened Wrappers
  import opened Soroban
  import opened Manifest
  import opened PolicyEvents
  import opened PolicyEventTheorems

  // ---- One event ----

  datatype UpstreamKind = Skipped | MissingContractId | NotTransfer | Transfer(record: TransferRecord)

  function Classify(e: DiagnosticEvent): UpstreamKind {
    if !IsContractEvent(e) then Skipped
    else if e.contractId.None? then MissingContractId
    else if |e.topics| < 3 || e.topics[0] != Symbol("transfer") then NotTransfer
    else if !e.topics[1].Address? || !e.topics[2].Address? || AmountOf(e.data).None? then NotTransfer
    else Transfer(TransferRecord(e.contractId.value, e.topics[1].strkey, e.topics[2].strkey, AmountOf(e.data).value))
  }

  // ---- The stream ----

  datatype UpstreamParse = UpstreamParse(transfers: seq<TransferRecord>, notTransfer: bool, missingId: bool)

  function ParseUpstream(events: seq<DiagnosticEvent>): UpstreamParse {
    if events == [] then UpstreamParse([], false, false)
    else
      var p := ParseUpstream(events[..|events| - 1]);
      match Classify(events[|events| - 1])
      case Skipped => p
      case MissingContractId => p.(missingId := true)
      case NotTransfer => p.(notTransfer := true)
      case Transfer(record) => p.(transfers := p.transfers + [record])
  }

  /** The loop skips events it cannot decode and keeps going after a bad one. */
  method ParseTransferEvents(events: seq<DiagnosticEvent>) returns (parse: UpstreamParse)
    ensures parse == ParseUpstream(events)
  {
    var transfers: seq<TransferRecord> := [];
    var notTransfer, missingId := false, false;
    for i := 0 to |events|
      invariant ParseUpstream(events[..i]) == UpstreamParse(transfers, notTransfer, missingId)
    {
      assert events[..i + 1][..i] == events[..i];
      match Classify(events[i]) {
        case Skipped =>
        case MissingContractId => missingId := true;
        case NotTransfer => notTransfer := true;
        case Transfer(record) => transfers := transfers + [record];
      }
    }
    assert events[..|events|] == events;
    parse := UpstreamParse(transfers, notTransfer, missingId);
  }

  function OfToken(transfers: seq<TransferRecord>, token: string, same: bool): seq<TransferRecord> {
    if transfers == [] then []
    else
      var rest := OfToken(transfers[1..], token, same);
      if (transfers[0].token == token) == same then [transfers[0]] + rest else rest
  }

  datatype UpstreamReason =
    | NoContractId
    | NonTransferEvent
    | NoTokenTransfer
    | SeveralTokenTransfers
    | WrongFrom
    | WrongTo
    | WrongAmount
    | OtherTokenTransfers

  function UpstreamVerdict(events: seq<DiagnosticEvent>, x: Expected): Option<UpstreamReason> {
    var p := ParseUpstream(events);
    var ofToken := OfToken(p.transfers, x.token, true);
    if p.missingId then Some(NoContractId)
    else if p.notTransfer then Some(NonTransferEvent)
    else if |ofToken| == 0 then Some(NoTokenTransfer)
    else if |ofToken| > 1 then Some(SeveralTokenTransfers)
    else if ofToken[0].from != x.from then Some(WrongFrom)
    else if ofToken[0].to != x.to then Some(WrongTo)
    else if ofToken[0].amount != x.amount then Some(WrongAmount)
    else if |OfToken(p.transfers, x.token, false)| > 0 then Some(OtherTokenTransfers)
    else None
  }

  predicate UpstreamAccepts(events: seq<DiagnosticEvent>, x: Expected) {
    UpstreamVerdict(events, x).None?
  }

  // ---- What it accepts ----

  function ContractEvents(events: seq<DiagnosticEvent>): seq<DiagnosticEvent> {
    if events == [] then []
    else
      var kept := ContractEvents(events[..|events| - 1]);
      if IsContractEvent(events[|events| - 1]) then kept + [events[|events| - 1]] else kept
  }

  predicate UpstreamTransfer(e: DiagnosticEvent, x: Expected) {
    Classify(e) == Transfer(TransferRecord(x.token, x.from, x.to, x.amount))
  }

  ghost predicate AllTransfers(contractEvents: seq<DiagnosticEvent>) {
    forall i :: 0 <= i < |contractEvents| ==> Classify(contractEvents[i]).Transfer?
  }

  lemma AllTransfersSnoc(front: seq<DiagnosticEvent>, last: DiagnosticEvent)
    ensures AllTransfers(front + [last]) <==> AllTransfers(front) && Classify(last).Transfer?
  {
    if AllTransfers(front + [last]) {
      assert forall i :: 0 <= i < |front| ==> front[i] == (front + [last])[i];
      assert (front + [last])[|front|] == last;
    }
  }

  lemma {:induction false} ParseReadsContractEvents(events: seq<DiagnosticEvent>)
    ensures
      var p, c := ParseUpstream(events), ContractEvents(events);
      && (!p.missingId && !p.notTransfer <==> AllTransfers(c))
      && (AllTransfers(c) ==> |p.transfers| == |c|)
      && (AllTransfers(c) ==> forall i :: 0 <= i < |c| ==> p.transfers[i] == Classify(c[i]).record)
    decreases |events|
  {
    if events != [] {
      var front := events[..|events| - 1];
      ParseReadsContractEvents(front);
      AllTransfersSnoc(ContractEvents(front), events[|events| - 1]);
    }
  }

  lemma {:induction false} TokensPartition(transfers: seq<TransferRecord>, token: string)
    ensures |OfToken(transfers, token, true)| + |OfToken(transfers, token, false)| == |transfers|
    decreases |transfers|
  {
    if transfers != [] {
      TokensPartition(transfers[1..], token);
    }
  }

  /** The upstream validator accepts exactly the streams whose only decoded contract event is the required transfer. */
  lemma UpstreamIffSoleEvent(events: seq<DiagnosticEvent>, x: Expected)
    ensures UpstreamAccepts(events, x) <==>
      |ContractEvents(events)| == 1 && UpstreamTransfer(ContractEvents(events)[0], x)
  {
    ParseReadsContractEvents(events);
    var transfers := ParseUpstream(events).transfers;
    TokensPartition(transfers, x.token);
    if |transfers| == 1 {
      assert transfers[1..] == [];
      assert OfToken(transfers, x.token, true) == if transfers[0].token == x.token then [transfers[0]] else [];
    }
  }

  // ---- The policy-aware validator extends it ----

  /** The stream without the contract events that are not named transfer. */
  function WithoutPolicyEvents(events: seq<DiagnosticEvent>): seq<DiagnosticEvent> {
    if events == [] then []
    else
      var last := events[|events| - 1];
      var kept := WithoutPolicyEvents(events[..|events| - 1]);
      if IsContractEvent(last) && !TransferNamed(last) then kept else kept + [last]
  }


  lemma {:induction false} ParsedAreContractEvents(events: seq<DiagnosticEvent>)
    requires ParseEvents(events).Ok?
    ensures ParseEvents(events).value == ContractEvents(events)
    decreases |events|
  {
    if events != [] {
      ParsedAreContractEvents(events[..|events| - 1]);
    }
  }

  lemma {:induction false} TransfersRemain(events: seq<DiagnosticEvent>)
    requires ParseEvents(events).Ok?
    ensures Select(true, ParseEvents(events).value) == ContractEvents(WithoutPolicyEvents(events))
    decreases |events|
  {
    if events != [] {
      var front, last := events[..|events| - 1], events[|events| - 1];
      TransfersRemain(front);
      var kept := WithoutPolicyEvents(front);
      assert (kept + [last])[..|kept|] == kept;
      var parsed := ParseEvents(front).value;
      assert (parsed + [last])[..|parsed|] == parsed;
    }
  }

  lemma SameTransfer(e: ContractEventRecord, x: Expected)
    ensures RequiredTransfer(e, x) <==> UpstreamTransfer(e, x)
  {
  }

  /** The policy part of the decision: what the scan of the remaining events and the required adapters ask. */
  predicate PolicyPartPasses(
    events: seq<DiagnosticEvent>, x: Expected, m: PolicyManifest, hashes: WasmHashes)
    requires ParseEvents(events).Ok?
  {
    var scan := ScanPolicy(Select(false, ParseEvents(events).value), x, m, hashes);
    scan.Ok? && RequiredSeen(m, scan.value.approved)
  }

  /**
    Conservative extension: the policy-aware validator accepts exactly when the manifest fits, the stream is well
    formed, the upstream validator accepts what remains without the policy events, and those events pass.
   */
  lemma PolicyExtendsUpstream(
    events: seq<DiagnosticEvent>, x: Expected, m: PolicyManifest, hashes: WasmHashes)
    ensures Verdict(events, x, m, hashes).Accepted? <==>
      && BoundTo(m, x)
      && ParseEvents(events).Ok?
      && UpstreamAccepts(WithoutPolicyEvents(events), x)
      && PolicyPartPasses(events, x, m, hashes)
  {
    if ParseEvents(events).Ok? {
      var transfers := Select(true, ParseEvents(events).value);
      TransfersRemain(events);
      UpstreamIffSoleEvent(WithoutPolicyEvents(events), x);
      if |transfers| == 1 {
        SameTransfer(transfers[0], x);
      }
    }
  }

  lemma {:induction false} SelectSplits(s: seq<ContractEventRecord>)
    ensures |Select(true, s)| + |Select(false, s)| == |s|
    ensures Select(false, s) == [] ==> Select(true, s) == s
    decreases |s|
  {
    if s != [] {
      SelectSplits(s[..|s| - 1]);
      assert s == s[..|s| - 1] + [s[|s| - 1]];
    }
  }

  lemma NoAdapterNoPolicyEvent(s: seq<ContractEventRecord>, x: Expected, m: PolicyManifest, hashes: WasmHashes)
    requires m.adapters == []
    ensures ScanPolicy(s, x, m, hashes).Ok? <==> s == []
  {
  }

  /** A single transfer and nothing else is a single event that is the transfer. */
  lemma SoleRecord(parsed: seq<ContractEventRecord>, x: Expected)
    ensures
      var transfers := Select(true, parsed);
      |transfers| == 1 && RequiredTransfer(transfers[0], x) && Select(false, parsed) == []
      <==> |parsed| == 1 && UpstreamTransfer(parsed[0], x)
  {
    SelectSplits(parsed);
    if |parsed| == 1 {
      SameTransfer(parsed[0], x);
      assert parsed[..0] == [];
    }
  }

  lemma VerdictWithoutAdapters(
    events: seq<DiagnosticEvent>, x: Expected, m: PolicyManifest, hashes: WasmHashes)
    requires m.adapters == [] && BoundTo(m, x)
    ensures Verdict(events, x, m, hashes).Accepted? <==>
      ParseEvents(events).Ok? && |ContractEvents(events)| == 1 && UpstreamTransfer(ContractEvents(events)[0], x)
  {
    if ParseEvents(events).Ok? {
      var parsed := ParseEvents(events).value;
      ParsedAreContractEvents(events);
      SoleRecord(parsed, x);
      NoAdapterNoPolicyEvent(Select(false, parsed), x, m, hashes);
    }
  }

  /**
    With no adapters and fitting pins the two validators differ only on malformed events and on contract events
    outside a successful call, which the upstream validator lets pass.
   */
  lemma WithoutAdaptersTheyCoincide(
    events: seq<DiagnosticEvent>, x: Expected, m: PolicyManifest, hashes: WasmHashes)
    requires m.adapters == [] && BoundTo(m, x)
    ensures Verdict(events, x, m, hashes).Accepted? <==>
      UpstreamAccepts(events, x) && forall e :: e in events && Relevant(e) ==> !e.Malformed? && e.inSuccessfulCall
  {
    VerdictWithoutAdapters(events, x, m, hashes);
    ParseCounts(events);
    UpstreamIffSoleEvent(events, x);
    InContractEvents(events);
  }

  lemma {:induction false} InContractEvents(events: seq<DiagnosticEvent>)
    ensures forall e :: e in ContractEvents(events) <==> e in events && IsContractEvent(e)
    decreases |events|
  {
    if events != [] {
      InContractEvents(events[..|events| - 1]);
      assert events == events[..|events| - 1] + [events[|events| - 1]];
    }
  }
}
