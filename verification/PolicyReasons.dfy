/**
  Which reason a rejected event stream gets: the rule for one order, the reasons over all orders of the same events,
  and when the order does not matter.
 */
module PolicyReasons {
  import opened Wrappers
  import opened Soroban
  import opened Manifest
  import opened PolicyEvents
  import opened PolicyEventTheorems

  // ---- The parse phase ----

  predicate FirstParseError(events: seq<DiagnosticEvent>, i: nat, r: EventReason) {
    && i < |events| && ParseError(events[i]) == Some(r)
    && forall j :: 0 <= j < i ==> ParseError(events[j]).None?
  }

  /** Parsing fails with the error of the first event that has one. */
  lemma {:induction false} ParseReasonIsFirst(events: seq<DiagnosticEvent>, r: EventReason)
    ensures ParseEvents(events) == Err(r) <==> exists i :: FirstParseError(events, i, r)
    ensures ParseEvents(events).Ok? <==> forall i :: 0 <= i < |events| ==> ParseError(events[i]).None?
    decreases |events|
  {
    if events != [] {
      var front, n := events[..|events| - 1], |events| - 1;
      ParseReasonIsFirst(front, r);
      assert forall i :: 0 <= i < n ==> front[i] == events[i];
      forall i: nat | i < n ensures FirstParseError(events, i, r) <==> FirstParseError(front, i, r) {
      }
      if ParseEvents(front).Err? {
        var j: nat :| j < n && ParseError(front[j]).Some?;
        assert ParseError(events[j]).Some? && !FirstParseError(events, n, r);
      } else {
        assert ParseError(events[n]) == Some(r) ==> FirstParseError(events, n, r);
      }
    }
  }

  // ---- The policy phase ----

  predicate HasAdapter(e: ContractEventRecord, m: PolicyManifest) {
    FindAdapter(m.adapters, e.contractId.value).Some?
  }

  function KeyOf(e: ContractEventRecord, m: PolicyManifest): string
    requires HasAdapter(e, m)
  {
    EventKey(FindAdapter(m.adapters, e.contractId.value).value, e)
  }

  /** An event of a named contract with the pinned code: it reaches the check for duplicates. */
  predicate Identified(e: ContractEventRecord, m: PolicyManifest, hashes: WasmHashes) {
    HasAdapter(e, m) && RunsItsCode(FindAdapter(m.adapters, e.contractId.value).value, hashes)
  }

  /** What is wrong with an event by itself. */
  function OwnFault(e: ContractEventRecord, x: Expected, m: PolicyManifest, hashes: WasmHashes): Option<EventReason> {
    if !HasAdapter(e, m) then Some(PolicyUnapproved)
    else if !Identified(e, m, hashes) then Some(ManifestMismatch)
    else if FindAdapter(m.adapters, e.contractId.value).value.kind != OZ_SPENDING_LIMIT then Some(PolicyUnapproved)
    else SpendingLimitError(e, x)
  }

  /** What is wrong with it after events with the given keys. */
  function FaultAfter(
    e: ContractEventRecord, keys: set<string>, x: Expected, m: PolicyManifest, hashes: WasmHashes)
    : Option<EventReason>
  {
    if Identified(e, m, hashes) && KeyOf(e, m) in keys then Some(PolicyDuplicate) else OwnFault(e, x, m, hashes)
  }

  function KeysOf(events: seq<ContractEventRecord>, m: PolicyManifest): set<string> {
    set e | e in events && HasAdapter(e, m) :: KeyOf(e, m)
  }

  predicate FirstFault(
    events: seq<ContractEventRecord>, i: nat, r: EventReason, x: Expected, m: PolicyManifest, hashes: WasmHashes)
  {
    && i < |events| && FaultAfter(events[i], KeysOf(events[..i], m), x, m, hashes) == Some(r)
    && Faultless(events[..i], x, m, hashes)
  }

  predicate Faultless(events: seq<ContractEventRecord>, x: Expected, m: PolicyManifest, hashes: WasmHashes) {
    forall j :: 0 <= j < |events| ==> FaultAfter(events[j], KeysOf(events[..j], m), x, m, hashes).None?
  }

  lemma FaultlessSnoc(
    front: seq<ContractEventRecord>, last: ContractEventRecord, x: Expected, m: PolicyManifest, hashes: WasmHashes)
    ensures Faultless(front + [last], x, m, hashes) <==>
      Faultless(front, x, m, hashes) && FaultAfter(last, KeysOf(front, m), x, m, hashes).None?
  {
    var s := front + [last];
    assert forall j :: 0 <= j < |front| ==> s[j] == front[j] && s[..j] == front[..j];
    assert s[|front|] == last && s[..|front|] == front;
  }

  lemma ScanOneIsFault(
    st: ScanState, e: ContractEventRecord, x: Expected, m: PolicyManifest, hashes: WasmHashes)
    ensures
      match FaultAfter(e, st.seen, x, m, hashes)
      case Some(r) => ScanOne(st, e, x, m, hashes) == Err(r)
      case None => ScanOne(st, e, x, m, hashes).Ok? && HasAdapter(e, m)
                   && ScanOne(st, e, x, m, hashes).value.seen == st.seen + {KeyOf(e, m)}
  {
  }

  lemma KeysSnoc(front: seq<ContractEventRecord>, last: ContractEventRecord, m: PolicyManifest)
    requires HasAdapter(last, m)
    ensures KeysOf(front + [last], m) == KeysOf(front, m) + {KeyOf(last, m)}
  {
    var s := front + [last];
    assert forall e :: e in s <==> e in front || e == last;
    forall k ensures k in KeysOf(s, m) <==> k in KeysOf(front, m) + {KeyOf(last, m)} {
      if k == KeyOf(last, m) {
        assert last in s;
      }
    }
  }

  /** The scan passes while no event is at fault, and has then seen their keys. */
  lemma {:induction false} ScanSeesKeys(
    events: seq<ContractEventRecord>, x: Expected, m: PolicyManifest, hashes: WasmHashes)
    ensures ScanPolicy(events, x, m, hashes).Ok? <==> Faultless(events, x, m, hashes)
    ensures ScanPolicy(events, x, m, hashes).Ok? ==> ScanPolicy(events, x, m, hashes).value.seen == KeysOf(events, m)
    decreases |events|
  {
    if events != [] {
      var front, last := events[..|events| - 1], events[|events| - 1];
      ScanSeesKeys(front, x, m, hashes);
      assert events == front + [last];
      FaultlessSnoc(front, last, x, m, hashes);
      if ScanPolicy(front, x, m, hashes).Ok? {
        ScanOneIsFault(ScanPolicy(front, x, m, hashes).value, last, x, m, hashes);
        if HasAdapter(last, m) {
          KeysSnoc(front, last, m);
        }
      }
    }
  }

  ghost predicate FaultedBy(
    events: seq<ContractEventRecord>, r: EventReason, x: Expected, m: PolicyManifest, hashes: WasmHashes)
  {
    exists i :: FirstFault(events, i, r, x, m, hashes)
  }

  lemma FirstFaultInFront(
    front: seq<ContractEventRecord>, last: ContractEventRecord, i: nat, r: EventReason,
    x: Expected, m: PolicyManifest, hashes: WasmHashes)
    requires i < |front|
    ensures FirstFault(front + [last], i, r, x, m, hashes) <==> FirstFault(front, i, r, x, m, hashes)
  {
    assert (front + [last])[..i] == front[..i];
  }

  lemma FirstFaultAtEnd(
    front: seq<ContractEventRecord>, last: ContractEventRecord, r: EventReason,
    x: Expected, m: PolicyManifest, hashes: WasmHashes)
    ensures FirstFault(front + [last], |front|, r, x, m, hashes) <==>
      Faultless(front, x, m, hashes) && FaultAfter(last, KeysOf(front, m), x, m, hashes) == Some(r)
  {
    assert (front + [last])[..|front|] == front;
  }

  lemma FaultedSnoc(
    front: seq<ContractEventRecord>, last: ContractEventRecord, r: EventReason,
    x: Expected, m: PolicyManifest, hashes: WasmHashes)
    ensures FaultedBy(front + [last], r, x, m, hashes) <==>
      || FaultedBy(front, r, x, m, hashes)
      || (Faultless(front, x, m, hashes) && FaultAfter(last, KeysOf(front, m), x, m, hashes) == Some(r))
  {
    FirstFaultAtEnd(front, last, r, x, m, hashes);
    forall i: nat | i < |front|
      ensures FirstFault(front + [last], i, r, x, m, hashes) <==> FirstFault(front, i, r, x, m, hashes)
    {
      FirstFaultInFront(front, last, i, r, x, m, hashes);
    }
  }

  lemma FaultlessIsNotFaulted(
    events: seq<ContractEventRecord>, r: EventReason, x: Expected, m: PolicyManifest, hashes: WasmHashes)
    requires Faultless(events, x, m, hashes)
    ensures !FaultedBy(events, r, x, m, hashes)
  {
  }

  /** The scan fails with the fault of the first event that has one after those before it. */
  lemma {:induction false} ScanReasonIsFirst(
    events: seq<ContractEventRecord>, r: EventReason, x: Expected, m: PolicyManifest, hashes: WasmHashes)
    ensures ScanPolicy(events, x, m, hashes) == Err(r) <==> FaultedBy(events, r, x, m, hashes)
    decreases |events|
  {
    if events != [] {
      var front, last := events[..|events| - 1], events[|events| - 1];
      assert events == front + [last];
      ScanReasonIsFirst(front, r, x, m, hashes);
      ScanSeesKeys(front, x, m, hashes);
      FaultedSnoc(front, last, r, x, m, hashes);
      if ScanPolicy(front, x, m, hashes).Ok? {
        ScanOneIsFault(ScanPolicy(front, x, m, hashes).value, last, x, m, hashes);
        FaultlessIsNotFaulted(front, r, x, m, hashes);
      }
    }
  }

  // ---- The transfer phase ----

  predicate IsTransfer(e: DiagnosticEvent) {
    Parsable(e) && TransferNamed(e)
  }

  ghost predicate OnlyTransfer(events: multiset<DiagnosticEvent>, t: DiagnosticEvent) {
    IsTransfer(t) && events[t] == 1 && forall e :: e in events && IsTransfer(e) ==> e == t
  }

  /** None, several, or one that is not the required one; the order has no part in it. */
  ghost predicate TransferFault(events: multiset<DiagnosticEvent>, x: Expected, r: EventReason) {
    if forall e :: e in events ==> !IsTransfer(e) then r == TransferMissing
    else if forall t :: t in events ==> !OnlyTransfer(events, t) then r == TransferDuplicate
    else r == TransferMismatch && exists t :: OnlyTransfer(events, t) && !RequiredTransfer(t, x)
  }

  ghost predicate TransferOk(events: multiset<DiagnosticEvent>, x: Expected) {
    exists t :: OnlyTransfer(events, t) && RequiredTransfer(t, x)
  }

  /** The count and match of the parsed transfers, as the validator takes them. */
  function TransferVerdict(transfers: seq<ContractEventRecord>, x: Expected): Option<EventReason> {
    if |transfers| == 0 then Some(TransferMissing)
    else if |transfers| != 1 then Some(TransferDuplicate)
    else if !RequiredTransfer(transfers[0], x) then Some(TransferMismatch)
    else None
  }

  lemma TransferMembers(events: seq<DiagnosticEvent>, parsed: seq<ContractEventRecord>)
    requires SameCounts(parsed, events)
    ensures forall e :: e in Select(true, parsed) <==> e in events && IsTransfer(e)
    ensures forall e :: e in Select(true, parsed) ==> multiset(Select(true, parsed))[e] == multiset(events)[e]
  {
    var transfers := Select(true, parsed);
    SelectCounts(true, parsed);
    forall e ensures e in transfers <==> e in events && IsTransfer(e) {
      assert e in transfers <==> e in multiset(transfers);
      assert e in events <==> e in multiset(events);
    }
  }

  lemma SoleIffOnly(events: seq<DiagnosticEvent>, transfers: seq<ContractEventRecord>, t: DiagnosticEvent)
    requires forall e :: e in transfers <==> e in events && IsTransfer(e)
    requires forall e :: e in transfers ==> multiset(transfers)[e] == multiset(events)[e]
    ensures transfers == [t] <==> OnlyTransfer(multiset(events), t)
  {
    if OnlyTransfer(multiset(events), t) {
      assert t in multiset(events) && t in events && t in transfers;
      forall i | 0 <= i < |transfers| ensures transfers[i] == t {
        assert transfers[i] in events && transfers[i] in multiset(events);
      }
      OnlyCopies(transfers, t);
    }
    if transfers == [t] {
      assert t in transfers && multiset(transfers)[t] == 1;
      assert forall e :: e in multiset(events) ==> e in events;
    }
  }

  lemma TransferReason(events: seq<DiagnosticEvent>, parsed: seq<ContractEventRecord>, x: Expected, r: EventReason)
    requires SameCounts(parsed, events)
    ensures TransferVerdict(Select(true, parsed), x) == Some(r) <==> TransferFault(multiset(events), x, r)
    ensures TransferVerdict(Select(true, parsed), x).None? <==> TransferOk(multiset(events), x)
  {
    var transfers := Select(true, parsed);
    TransferMembers(events, parsed);
    assert forall e :: e in events <==> e in multiset(events);
    forall t ensures transfers == [t] <==> OnlyTransfer(multiset(events), t) {
      SoleIffOnly(events, transfers, t);
    }
    assert transfers == [] <==> forall e :: e in multiset(events) ==> !IsTransfer(e) by {
      if transfers != [] {
        assert transfers[0] in transfers;
      }
    }
    if |transfers| == 1 {
      assert transfers == [transfers[0]];
      assert transfers[0] in transfers;
    }
  }

  // ---- The rule for one order ----

  /** The policy events of a well-formed stream, in order. */
  function PolicyEventsOf(events: seq<DiagnosticEvent>): (r: seq<ContractEventRecord>)
    ensures forall e :: e in r ==> PolicyEvent(e)
  {
    if events == [] then []
    else
      var kept := PolicyEventsOf(events[..|events| - 1]);
      if PolicyEvent(events[|events| - 1]) then kept + [events[|events| - 1]] else kept
  }

  lemma {:induction false} SelectedArePolicyEvents(events: seq<DiagnosticEvent>)
    requires ParseEvents(events).Ok?
    ensures Select(false, ParseEvents(events).value) == PolicyEventsOf(events)
    decreases |events|
  {
    if events != [] {
      var front, last := events[..|events| - 1], events[|events| - 1];
      SelectedArePolicyEvents(front);
      var parsed := ParseEvents(front).value;
      assert Parsable(last) ==> (parsed + [last])[..|parsed|] == parsed;
    }
  }

  ghost predicate ParsesWell(events: multiset<DiagnosticEvent>) {
    forall e :: e in events ==> ParseError(e).None?
  }

  ghost predicate RequiredWitnessed(events: multiset<DiagnosticEvent>, m: PolicyManifest) {
    forall a | a in m.adapters && a.required :: Witnessed(events, a.contractId)
  }

  /**
    The reason a stream in this order is rejected for: a manifest that does not fit; else the first event that does
    not parse; else the number and content of its transfers; else the first policy event at fault after those before
    it; else a required adapter without an event.
   */
  ghost predicate RejectedFor(
    events: seq<DiagnosticEvent>, x: Expected, m: PolicyManifest, hashes: WasmHashes, r: EventReason)
  {
    var all := multiset(events);
    if !BoundTo(m, x) then r == ManifestMismatch
    else if !ParsesWell(all) then exists i :: FirstParseError(events, i, r)
    else if !TransferOk(all, x) then TransferFault(all, x, r)
    else if !Faultless(PolicyEventsOf(events), x, m, hashes) then FaultedBy(PolicyEventsOf(events), r, x, m, hashes)
    else !RequiredWitnessed(all, m) && r == PolicyMalformed
  }

  lemma ParsesWellIff(events: seq<DiagnosticEvent>)
    ensures ParsesWell(multiset(events)) <==> ParseEvents(events).Ok?
    ensures ParseEvents(events).Ok? ==> SameCounts(ParseEvents(events).value, events)
  {
    ParseCounts(events);
    assert forall e :: e in events <==> e in multiset(events);
    assert forall e :: ParseError(e).None? <==> (Relevant(e) ==> Parsable(e));
  }

  /** The rest of the verdict, once the stream parses. */
  function AfterParsing(
    parsed: seq<ContractEventRecord>, x: Expected, m: PolicyManifest, hashes: WasmHashes): EventVerdict
  {
    match TransferVerdict(Select(true, parsed), x)
    case Some(r) => Rejected(r)
    case None =>
      match ScanPolicy(Select(false, parsed), x, m, hashes)
      case Err(reason) => Rejected(reason)
      case Ok(st) => if RequiredSeen(m, st.approved) then Accepted(st.approved) else Rejected(PolicyMalformed)
  }

  lemma VerdictInPhases(events: seq<DiagnosticEvent>, x: Expected, m: PolicyManifest, hashes: WasmHashes)
    requires BoundTo(m, x)
    ensures Verdict(events, x, m, hashes) ==
      match ParseEvents(events)
      case Err(reason) => Rejected(reason)
      case Ok(parsed) => AfterParsing(parsed, x, m, hashes)
  {
  }

  lemma RequiredIff(
    events: seq<DiagnosticEvent>, parsed: seq<ContractEventRecord>, x: Expected, m: PolicyManifest, hashes: WasmHashes)
    requires SameCounts(parsed, events) && ScanPolicy(Select(false, parsed), x, m, hashes).Ok?
    ensures RequiredSeen(m, ScanPolicy(Select(false, parsed), x, m, hashes).value.approved)
      <==> RequiredWitnessed(multiset(events), m)
  {
    ApprovedAreWitnessed(events, parsed, x, m, hashes);
  }

  /** The verdict rejects a stream for exactly the reason the rule gives it. */
  lemma RejectedByRule(
    events: seq<DiagnosticEvent>, x: Expected, m: PolicyManifest, hashes: WasmHashes, r: EventReason)
    ensures Verdict(events, x, m, hashes) == Rejected(r) <==> RejectedFor(events, x, m, hashes, r)
  {
    if BoundTo(m, x) {
      ParsesWellIff(events);
      ParseReasonIsFirst(events, r);
      VerdictInPhases(events, x, m, hashes);
      if ParseEvents(events).Ok? {
        AfterParsingByRule(events, x, m, hashes, r);
      }
    }
  }

  lemma AfterParsingByRule(
    events: seq<DiagnosticEvent>, x: Expected, m: PolicyManifest, hashes: WasmHashes, r: EventReason)
    requires ParseEvents(events).Ok? && SameCounts(ParseEvents(events).value, events)
    ensures AfterParsing(ParseEvents(events).value, x, m, hashes) == Rejected(r) <==>
      if !TransferOk(multiset(events), x) then TransferFault(multiset(events), x, r)
      else if !Faultless(PolicyEventsOf(events), x, m, hashes)
      then FaultedBy(PolicyEventsOf(events), r, x, m, hashes)
      else !RequiredWitnessed(multiset(events), m) && r == PolicyMalformed
  {
    var parsed, policy := ParseEvents(events).value, PolicyEventsOf(events);
    TransferReason(events, parsed, x, r);
    SelectedArePolicyEvents(events);
    ScanReasonIsFirst(policy, r, x, m, hashes);
    ScanSeesKeys(policy, x, m, hashes);
    if ScanPolicy(policy, x, m, hashes).Ok? {
      RequiredIff(events, parsed, x, m, hashes);
    }
  }

  // ---- All orders of the same events ----

  /** A faultless event and another identified one with its key: in that order the second is a duplicate. */
  ghost predicate Clash(
    events: multiset<DiagnosticEvent>, g: DiagnosticEvent, e: DiagnosticEvent,
    x: Expected, m: PolicyManifest, hashes: WasmHashes)
  {
    && g in events && e in events && PolicyEvent(g) && PolicyEvent(e)
    && OwnFault(g, x, m, hashes).None?
    && Identified(e, m, hashes) && HasAdapter(g, m) && KeyOf(e, m) == KeyOf(g, m)
    && (g != e || events[g] >= 2)
  }

  ghost predicate PolicyReason(
    events: multiset<DiagnosticEvent>, x: Expected, m: PolicyManifest, hashes: WasmHashes, r: EventReason)
  {
    || (exists e :: e in events && PolicyEvent(e) && OwnFault(e, x, m, hashes) == Some(r))
    || (r == PolicyDuplicate && exists g, e :: Clash(events, g, e, x, m, hashes))
  }

  /** The reasons some order of the events is rejected for. */
  ghost predicate PossibleReason(
    events: multiset<DiagnosticEvent>, x: Expected, m: PolicyManifest, hashes: WasmHashes, r: EventReason)
  {
    if !BoundTo(m, x) then r == ManifestMismatch
    else if !ParsesWell(events) then exists e :: e in events && ParseError(e) == Some(r)
    else if !TransferOk(events, x) then TransferFault(events, x, r)
    else if exists q :: PolicyReason(events, x, m, hashes, q) then PolicyReason(events, x, m, hashes, r)
    else !RequiredWitnessed(events, m) && r == PolicyMalformed
  }

  lemma {:induction false} PolicyCounts(events: seq<DiagnosticEvent>)
    ensures forall e: ContractEventRecord ::
              multiset(PolicyEventsOf(events))[e] == if PolicyEvent(e) then multiset(events)[e] else 0
    decreases |events|
  {
    if events != [] {
      PolicyCounts(events[..|events| - 1]);
      SnocCount(events);
    }
  }

  lemma PolicyListed(events: seq<DiagnosticEvent>, e: DiagnosticEvent)
    ensures e in PolicyEventsOf(events) <==> e in events && PolicyEvent(e)
  {
    PolicyCounts(events);
    assert e in PolicyEventsOf(events) <==> e in multiset(PolicyEventsOf(events));
    assert e in events <==> e in multiset(events);
  }

  lemma OwnFaultIsFault(
    e: ContractEventRecord, keys: set<string>, x: Expected, m: PolicyManifest, hashes: WasmHashes)
    ensures OwnFault(e, x, m, hashes).Some? ==> FaultAfter(e, keys, x, m, hashes).Some?
    ensures OwnFault(e, x, m, hashes).None? ==> Identified(e, m, hashes)
  {
  }

  /** Whatever the scan reports is a possible reason. */
  lemma FaultIsReason(
    events: seq<DiagnosticEvent>, i: nat, r: EventReason, x: Expected, m: PolicyManifest, hashes: WasmHashes)
    requires FirstFault(PolicyEventsOf(events), i, r, x, m, hashes)
    ensures PolicyReason(multiset(events), x, m, hashes, r)
  {
    var policy := PolicyEventsOf(events);
    var e := policy[i];
    PolicyListed(events, e);
    if OwnFault(e, x, m, hashes) != Some(r) {
      assert r == PolicyDuplicate && KeyOf(e, m) in KeysOf(policy[..i], m);
      var g :| g in policy[..i] && HasAdapter(g, m) && KeyOf(g, m) == KeyOf(e, m);
      var j :| 0 <= j < i && policy[..i][j] == g;
      assert FaultAfter(policy[..i][j], KeysOf(policy[..i][..j], m), x, m, hashes).None?;
      OwnFaultIsFault(g, KeysOf(policy[..i][..j], m), x, m, hashes);
      PolicyListed(events, g);
      if g == e {
        CountOnce(policy, j, i);
        PolicyCounts(events);
      }
      assert Clash(multiset(events), g, e, x, m, hashes);
    }
  }

  lemma LaterIsFaulted(
    policy: seq<ContractEventRecord>, j: nat, i: nat, x: Expected, m: PolicyManifest, hashes: WasmHashes)
    requires j < i < |policy| && HasAdapter(policy[j], m) && Identified(policy[i], m, hashes)
    requires KeyOf(policy[i], m) == KeyOf(policy[j], m)
    ensures !Faultless(policy, x, m, hashes)
  {
    assert policy[..i][j] == policy[j];
    assert KeyOf(policy[j], m) in KeysOf(policy[..i], m);
    assert FaultAfter(policy[i], KeysOf(policy[..i], m), x, m, hashes).Some?;
  }

  lemma TwoPlaces<T>(s: seq<T>, g: T, e: T) returns (i: nat, j: nat)
    requires g in s && e in s && (g != e || multiset(s)[g] >= 2)
    ensures i < |s| && j < |s| && i != j && s[i] == g && s[j] == e
  {
    i :| 0 <= i < |s| && s[i] == g;
    if g != e {
      j :| 0 <= j < |s| && s[j] == e;
    } else {
      assert s == s[..i] + [s[i]] + s[i + 1..];
      assert e in multiset(s[..i]) || e in multiset(s[i + 1..]);
      if e in s[..i] {
        j :| 0 <= j < i && s[..i][j] == e;
      } else {
        var k :| 0 <= k < |s[i + 1..]| && s[i + 1..][k] == e;
        j := i + 1 + k;
      }
    }
  }

  lemma OwnFaultFails(
    events: seq<DiagnosticEvent>, e: DiagnosticEvent, x: Expected, m: PolicyManifest, hashes: WasmHashes)
    requires e in events && PolicyEvent(e) && OwnFault(e, x, m, hashes).Some?
    ensures !Faultless(PolicyEventsOf(events), x, m, hashes)
  {
    var policy := PolicyEventsOf(events);
    PolicyListed(events, e);
    var i :| 0 <= i < |policy| && policy[i] == e;
    OwnFaultIsFault(e, KeysOf(policy[..i], m), x, m, hashes);
    assert FaultAfter(policy[i], KeysOf(policy[..i], m), x, m, hashes).Some?;
  }

  lemma ClashFails(
    events: seq<DiagnosticEvent>, g: DiagnosticEvent, e: DiagnosticEvent,
    x: Expected, m: PolicyManifest, hashes: WasmHashes)
    requires Clash(multiset(events), g, e, x, m, hashes)
    ensures !Faultless(PolicyEventsOf(events), x, m, hashes)
  {
    var policy := PolicyEventsOf(events);
    PolicyListed(events, g);
    PolicyListed(events, e);
    PolicyCounts(events);
    OwnFaultIsFault(g, {}, x, m, hashes);
    var i, j := TwoPlaces(policy, g, e);
    if i < j {
      LaterIsFaulted(policy, i, j, x, m, hashes);
    } else {
      LaterIsFaulted(policy, j, i, x, m, hashes);
    }
  }

  /** With a possible policy reason the scan fails in every order. */
  lemma ReasonMeansFault(
    events: seq<DiagnosticEvent>, r: EventReason, x: Expected, m: PolicyManifest, hashes: WasmHashes)
    requires PolicyReason(multiset(events), x, m, hashes, r)
    ensures !Faultless(PolicyEventsOf(events), x, m, hashes)
  {
    if e :| e in multiset(events) && PolicyEvent(e) && OwnFault(e, x, m, hashes) == Some(r) {
      OwnFaultFails(events, e, x, m, hashes);
    } else {
      var g, e :| Clash(multiset(events), g, e, x, m, hashes);
      ClashFails(events, g, e, x, m, hashes);
    }
  }

  lemma FaultyIffReason(events: seq<DiagnosticEvent>, x: Expected, m: PolicyManifest, hashes: WasmHashes)
    ensures !Faultless(PolicyEventsOf(events), x, m, hashes)
      <==> exists q :: PolicyReason(multiset(events), x, m, hashes, q)
  {
    var policy := PolicyEventsOf(events);
    if q :| PolicyReason(multiset(events), x, m, hashes, q) {
      ReasonMeansFault(events, q, x, m, hashes);
    }
    if !Faultless(policy, x, m, hashes) {
      ScanSeesKeys(policy, x, m, hashes);
      var q := ScanPolicy(policy, x, m, hashes).error;
      ScanReasonIsFirst(policy, q, x, m, hashes);
      var i: nat :| FirstFault(policy, i, q, x, m, hashes);
      FaultIsReason(events, i, q, x, m, hashes);
    }
  }

  /** Every reason the rule gives is possible. */
  lemma RuleIsPossible(
    events: seq<DiagnosticEvent>, x: Expected, m: PolicyManifest, hashes: WasmHashes, r: EventReason)
    requires RejectedFor(events, x, m, hashes, r)
    ensures PossibleReason(multiset(events), x, m, hashes, r)
  {
    var all := multiset(events);
    FaultyIffReason(events, x, m, hashes);
    if BoundTo(m, x) && !ParsesWell(all) {
      var i: nat :| FirstParseError(events, i, r);
      assert events[i] in all;
    } else if BoundTo(m, x) && TransferOk(all, x) && FaultedBy(PolicyEventsOf(events), r, x, m, hashes) {
      var i: nat :| FirstFault(PolicyEventsOf(events), i, r, x, m, hashes);
      FaultIsReason(events, i, r, x, m, hashes);
    }
  }

  lemma MoveToFront(events: seq<DiagnosticEvent>, e: DiagnosticEvent) returns (rest: seq<DiagnosticEvent>)
    requires e in events
    ensures multiset([e] + rest) == multiset(events)
  {
    var i :| 0 <= i < |events| && events[i] == e;
    rest := events[..i] + events[i + 1..];
    assert events == events[..i] + [e] + events[i + 1..];
  }

  lemma {:induction false} PolicyOfConcat(a: seq<DiagnosticEvent>, b: seq<DiagnosticEvent>)
    ensures PolicyEventsOf(a + b) == PolicyEventsOf(a) + PolicyEventsOf(b)
    decreases |b|
  {
    if b == [] {
      assert a + b == a;
    } else {
      PolicyOfConcat(a, b[..|b| - 1]);
      assert (a + b)[..|a + b| - 1] == a + b[..|b| - 1];
    }
  }

  lemma PolicyOfOne(e: DiagnosticEvent, rest: seq<DiagnosticEvent>)
    requires PolicyEvent(e)
    ensures PolicyEventsOf([e] + rest) == [e] + PolicyEventsOf(rest)
  {
    PolicyOfConcat([e], rest);
    assert [e][..0] == [];
    assert PolicyEventsOf([e][..0]) == [];
  }

  /** An event at fault by itself, put first, is what the stream is rejected for. */
  lemma FaultPutFirst(
    events: seq<DiagnosticEvent>, e: DiagnosticEvent, x: Expected, m: PolicyManifest, hashes: WasmHashes)
    returns (other: seq<DiagnosticEvent>)
    requires e in events && PolicyEvent(e) && OwnFault(e, x, m, hashes).Some?
    ensures multiset(other) == multiset(events)
    ensures FaultedBy(PolicyEventsOf(other), OwnFault(e, x, m, hashes).value, x, m, hashes)
  {
    var rest := MoveToFront(events, e);
    other := [e] + rest;
    PolicyOfOne(e, rest);
    var policy := PolicyEventsOf(other);
    assert policy[..0] == [] && KeysOf(policy[..0], m) == {};
    assert FirstFault(policy, 0, OwnFault(e, x, m, hashes).value, x, m, hashes);
  }

  /** Of two clashing events the second, put right after the first, is a duplicate. */
  lemma ClashPutFirst(
    events: seq<DiagnosticEvent>, g: DiagnosticEvent, e: DiagnosticEvent,
    x: Expected, m: PolicyManifest, hashes: WasmHashes)
    returns (other: seq<DiagnosticEvent>)
    requires Clash(multiset(events), g, e, x, m, hashes)
    ensures multiset(other) == multiset(events)
    ensures FaultedBy(PolicyEventsOf(other), PolicyDuplicate, x, m, hashes)
  {
    var others := MoveToFront(events, g);
    assert multiset([g] + others) == multiset{g} + multiset(others);
    assert e in multiset(others);
    var rest := MoveToFront(others, e);
    other := [g] + ([e] + rest);
    assert multiset(other) == multiset{g} + multiset([e] + rest);
    PolicyOfOne(g, [e] + rest);
    PolicyOfOne(e, rest);
    ClashIsFirstFault(PolicyEventsOf(other), x, m, hashes);
  }

  lemma ClashIsFirstFault(policy: seq<ContractEventRecord>, x: Expected, m: PolicyManifest, hashes: WasmHashes)
    requires |policy| >= 2 && OwnFault(policy[0], x, m, hashes).None?
    requires Identified(policy[1], m, hashes) && HasAdapter(policy[0], m) && KeyOf(policy[1], m) == KeyOf(policy[0], m)
    ensures FaultedBy(policy, PolicyDuplicate, x, m, hashes)
  {
    var first := policy[..1];
    assert first[0] in first && KeyOf(first[0], m) in KeysOf(first, m);
    assert first[..0] == [] && KeysOf(first[..0], m) == {};
    assert Faultless(first, x, m, hashes);
    assert FirstFault(policy, 1, PolicyDuplicate, x, m, hashes);
  }

  /** Every possible reason is the one of some order. */
  lemma PossibleIsReached(
    events: seq<DiagnosticEvent>, x: Expected, m: PolicyManifest, hashes: WasmHashes, r: EventReason)
    returns (other: seq<DiagnosticEvent>)
    requires PossibleReason(multiset(events), x, m, hashes, r)
    ensures multiset(other) == multiset(events) && RejectedFor(other, x, m, hashes, r)
  {
    var all := multiset(events);
    if !BoundTo(m, x) {
      other := events;
    } else if !ParsesWell(all) {
      var e :| e in all && ParseError(e) == Some(r);
      var rest := MoveToFront(events, e);
      other := [e] + rest;
      assert FirstParseError(other, 0, r);
    } else if !TransferOk(all, x) {
      other := events;
    } else {
      other := PolicyReached(events, x, m, hashes, r);
      FaultyIffReason(other, x, m, hashes);
    }
  }

  lemma PolicyReached(
    events: seq<DiagnosticEvent>, x: Expected, m: PolicyManifest, hashes: WasmHashes, r: EventReason)
    returns (other: seq<DiagnosticEvent>)
    ensures multiset(other) == multiset(events)
    ensures PolicyReason(multiset(events), x, m, hashes, r) ==> FaultedBy(PolicyEventsOf(other), r, x, m, hashes)
  {
    var all := multiset(events);
    if e :| e in all && PolicyEvent(e) && OwnFault(e, x, m, hashes) == Some(r) {
      other := FaultPutFirst(events, e, x, m, hashes);
    } else if r == PolicyDuplicate && exists g, e :: Clash(all, g, e, x, m, hashes) {
      var g, e :| Clash(all, g, e, x, m, hashes);
      other := ClashPutFirst(events, g, e, x, m, hashes);
    } else {
      other := events;
    }
  }

  /** Over all orders of the same events, the reasons for rejection are exactly the possible ones. */
  lemma ReasonsOverAllOrders(
    events: seq<DiagnosticEvent>, x: Expected, m: PolicyManifest, hashes: WasmHashes, r: EventReason)
    ensures (exists other :: multiset(other) == multiset(events) && Verdict(other, x, m, hashes) == Rejected(r))
      <==> PossibleReason(multiset(events), x, m, hashes, r)
  {
    if PossibleReason(multiset(events), x, m, hashes, r) {
      var other := PossibleIsReached(events, x, m, hashes, r);
      RejectedByRule(other, x, m, hashes, r);
    }
    if other :| multiset(other) == multiset(events) && Verdict(other, x, m, hashes) == Rejected(r) {
      RejectedByRule(other, x, m, hashes, r);
      RuleIsPossible(other, x, m, hashes, r);
    }
  }

  /**
    The order decides the reason exactly when more than one is possible: two unparsable events with different errors,
    or, once parsing and transfers are in order, policy events with different faults or a clash beside another fault.
   */
  lemma ReasonIsOrderFreeIff(
    events: seq<DiagnosticEvent>, x: Expected, m: PolicyManifest, hashes: WasmHashes, r: EventReason)
    requires Verdict(events, x, m, hashes) == Rejected(r)
    ensures (forall other | multiset(other) == multiset(events) :: Verdict(other, x, m, hashes) == Rejected(r))
      <==> (forall q :: PossibleReason(multiset(events), x, m, hashes, q) ==> q == r)
  {
    forall q
      ensures (exists other :: multiset(other) == multiset(events) && Verdict(other, x, m, hashes) == Rejected(q))
        <==> PossibleReason(multiset(events), x, m, hashes, q)
    {
      ReasonsOverAllOrders(events, x, m, hashes, q);
    }
    forall other | multiset(other) == multiset(events) ensures Verdict(other, x, m, hashes).Rejected? {
      PermutationKeepsRelevant(other, events);
      OrderAndSkippedEventsDoNotMatter(other, events, x, m, hashes);
    }
  }

  /** Before the policy phase only unparsable events can make the order matter: all must share one error. */
  lemma ParseReasonIsOrderFreeIff(
    events: seq<DiagnosticEvent>, x: Expected, m: PolicyManifest, hashes: WasmHashes, r: EventReason)
    requires BoundTo(m, x) && !ParsesWell(multiset(events)) && Verdict(events, x, m, hashes) == Rejected(r)
    ensures (forall other | multiset(other) == multiset(events) :: Verdict(other, x, m, hashes) == Rejected(r))
      <==> (forall e :: e in events && ParseError(e).Some? ==> ParseError(e) == Some(r))
  {
    ReasonIsOrderFreeIff(events, x, m, hashes, r);
    assert forall e :: e in events <==> e in multiset(events);
    forall e | e in events && ParseError(e).Some?
      ensures PossibleReason(multiset(events), x, m, hashes, ParseError(e).value)
    {
      assert e in multiset(events) && ParseError(e) == Some(ParseError(e).value);
    }
  }

  /** Transfers are counted and matched independently of the order. */
  lemma TransferReasonIsOrderFree(
    events: seq<DiagnosticEvent>, other: seq<DiagnosticEvent>, x: Expected, m: PolicyManifest, hashes: WasmHashes)
    requires BoundTo(m, x) && ParsesWell(multiset(events)) && !TransferOk(multiset(events), x)
    requires multiset(other) == multiset(events)
    ensures Verdict(other, x, m, hashes) == Verdict(events, x, m, hashes)
    ensures exists r :: TransferFault(multiset(events), x, r) && Verdict(events, x, m, hashes) == Rejected(r)
  {
    var all := multiset(events);
    var r := if forall e :: e in all ==> !IsTransfer(e) then TransferMissing
             else if forall t :: t in all ==> !OnlyTransfer(all, t) then TransferDuplicate else TransferMismatch;
    assert TransferFault(all, x, r);
    RejectedByRule(events, x, m, hashes, r);
    RejectedByRule(other, x, m, hashes, r);
  }
}
