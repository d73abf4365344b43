/**
  What the looping event validator accepts, as a predicate on the multiset of events. Order and skipped events
  cannot matter to such a predicate, and under a production manifest it leaves exactly two contract events.
 */
module PolicyEventTheorems {
  import opened Wrappers
  import opened Soroban
  import opened Manifest
  import opened PolicyEvents

  // ---- The declarative predicate ----

  predicate PolicyEvent(e: DiagnosticEvent) {
    Parsable(e) && !TransferNamed(e)
  }

  /** The manifest is for no payer in particular or this one, and for no rule in particular or this one. */
  predicate BoundTo(m: PolicyManifest, x: Expected) {
    && (m.smartAccount == None || m.smartAccount == Some("") || m.smartAccount == Some(x.from))
    && (m.expectedRuleId == None || m.expectedRuleId == Some(x.contextRuleId))
  }

  /** The adapter's contract is observed to run the code it pins, if it pins any. */
  predicate RunsItsCode(a: Adapter, hashes: WasmHashes) {
    a.expectedWasmHash == None || a.expectedWasmHash == Some("")
    || RunsPinned(hashes, a.contractId, a.expectedWasmHash.value)
  }

  /** A spending-limit event of this payment, from a contract the manifest names with the pinned code. */
  predicate PolicyApproved(e: DiagnosticEvent, x: Expected, m: PolicyManifest, hashes: WasmHashes) {
    && Parsable(e)
    && FindAdapter(m.adapters, e.contractId.value).Some?
    && FindAdapter(m.adapters, e.contractId.value).value.kind == OZ_SPENDING_LIMIT
    && RunsItsCode(FindAdapter(m.adapters, e.contractId.value).value, hashes)
    && SpendingLimitError(e, x).None?
  }

  ghost predicate SoleTransfer(events: multiset<DiagnosticEvent>, t: DiagnosticEvent, x: Expected) {
    && Parsable(t) && RequiredTransfer(t, x) && events[t] == 1
    && forall e :: e in events && Parsable(e) && TransferNamed(e) ==> e == t
  }

  ghost predicate OneEventPerContract(events: multiset<DiagnosticEvent>) {
    forall e, f | e in events && f in events && PolicyEvent(e) && PolicyEvent(f) && e.contractId == f.contractId
      :: e == f
  }

  ghost predicate Witnessed(events: multiset<DiagnosticEvent>, contractId: string) {
    exists e :: e in events && PolicyEvent(e) && e.contractId == Some(contractId)
  }

  /** Every policy event is approved and alone for its contract, and every required adapter has one. */
  ghost predicate PolicyPart(
    events: multiset<DiagnosticEvent>, x: Expected, m: PolicyManifest, hashes: WasmHashes)
  {
    && (forall e :: e in events && PolicyEvent(e) ==> events[e] == 1 && PolicyApproved(e, x, m, hashes))
    && OneEventPerContract(events)
    && (forall a | a in m.adapters && a.required :: Witnessed(events, a.contractId))
  }

  ghost predicate Acceptable(
    events: multiset<DiagnosticEvent>, x: Expected, m: PolicyManifest, hashes: WasmHashes)
  {
    && BoundTo(m, x)
    && (forall e :: e in events && Relevant(e) ==> Parsable(e))
    && (exists t :: SoleTransfer(events, t, x))
    && PolicyPart(events, x, m, hashes)
  }

  // ---- From loops to counts ----

  lemma SnocCount<T>(s: seq<T>)
    requires s != []
    ensures multiset(s) == multiset(s[..|s| - 1]) + multiset{s[|s| - 1]}
  {
    assert s == s[..|s| - 1] + [s[|s| - 1]];
  }

  ghost predicate SameCounts(parsed: seq<ContractEventRecord>, events: seq<DiagnosticEvent>) {
    forall e: ContractEventRecord :: multiset(parsed)[e] == multiset(events)[e]
  }

  /** Parsing succeeds when every relevant event is parsable, and keeps the parsable ones with their multiplicity. */
  lemma {:induction false} ParseCounts(events: seq<DiagnosticEvent>)
    ensures ParseEvents(events).Ok? <==> forall e :: e in events && Relevant(e) ==> Parsable(e)
    ensures ParseEvents(events).Ok? ==> SameCounts(ParseEvents(events).value, events)
    decreases |events|
  {
    if events != [] {
      var front, last := events[..|events| - 1], events[|events| - 1];
      ParseCounts(front);
      SnocCount(events);
      assert events == front + [last];
      assert forall e :: e in events <==> e in front || e == last;
      assert ParseError(last).None? <==> (Relevant(last) ==> Parsable(last));
    }
  }

  lemma {:induction false} SelectCounts(transfers: bool, s: seq<ContractEventRecord>)
    ensures forall e: ContractEventRecord ::
              multiset(Select(transfers, s))[e] == if TransferNamed(e) == transfers then multiset(s)[e] else 0
    decreases |s|
  {
    if s != [] {
      SelectCounts(transfers, s[..|s| - 1]);
      SnocCount(s);
    }
  }

  lemma {:induction false} CountOnce<T>(s: seq<T>, i: nat, j: nat)
    requires i < j < |s| && s[i] == s[j]
    ensures multiset(s)[s[i]] >= 2
  {
    assert s == s[..j] + s[j..];
    assert s[..j][i] == s[i] && s[j..][0] == s[i];
    assert s[i] in multiset(s[..j]) && s[i] in multiset(s[j..]);
  }

  lemma {:induction false} DistinctCounts<T>(s: seq<T>)
    requires forall i, j :: 0 <= i < j < |s| ==> s[i] != s[j]
    ensures forall x :: x in s ==> multiset(s)[x] == 1
    decreases |s|
  {
    if s != [] {
      var front := s[..|s| - 1];
      DistinctCounts(front);
      SnocCount(s);
      forall x | x in s ensures multiset(s)[x] == 1 {
        if x != s[|s| - 1] {
          assert x in front;
        } else {
          assert x !in front;
        }
      }
    }
  }

  ghost predicate DistinctContractIds(events: seq<ContractEventRecord>) {
    forall i, j :: 0 <= i < j < |events| ==> events[i].contractId != events[j].contractId
  }

  lemma DistinctIffCounted(events: seq<ContractEventRecord>)
    ensures DistinctContractIds(events) <==>
      && (forall e :: e in events ==> multiset(events)[e] == 1)
      && (forall e, f :: e in events && f in events && e.contractId == f.contractId ==> e == f)
  {
    if DistinctContractIds(events) {
      DistinctCounts(events);
    } else {
      var i, j :| 0 <= i < j < |events| && events[i].contractId == events[j].contractId;
      if events[i] == events[j] {
        CountOnce(events, i, j);
      }
    }
  }

  // ---- The scan ----

  /** The key of a valid policy event names its contract. */
  function ScanKey(contractId: string): string {
    OZ_SPENDING_LIMIT + ":" + contractId + ":" + "spending_limit_enforced"
  }

  lemma ScanKeyInjective(a: string, b: string)
    requires ScanKey(a) == ScanKey(b)
    ensures a == b
  {
    var n := |OZ_SPENDING_LIMIT| + 1;
    assert ScanKey(a)[n..n + |a|] == a;
    assert ScanKey(b)[n..n + |b|] == b;
    assert |ScanKey(a)| == n + |a| + 1 + |"spending_limit_enforced"|;
    assert |ScanKey(b)| == n + |b| + 1 + |"spending_limit_enforced"|;
  }

  ghost predicate ScanMatches(events: seq<ContractEventRecord>, st: ScanState) {
    && |st.approved| == |events|
    && (forall i :: 0 <= i < |events| ==> st.approved[i] == events[i].contractId.value)
    && (forall k :: k in st.seen <==> exists i :: 0 <= i < |events| && k == ScanKey(events[i].contractId.value))
  }

  ghost predicate AllApproved(
    events: seq<ContractEventRecord>, x: Expected, m: PolicyManifest, hashes: WasmHashes)
  {
    forall e :: e in events ==> PolicyApproved(e, x, m, hashes)
  }

  lemma ApprovedKey(e: ContractEventRecord, x: Expected, m: PolicyManifest, hashes: WasmHashes)
    requires PolicyApproved(e, x, m, hashes)
    ensures EventKey(FindAdapter(m.adapters, e.contractId.value).value, e) == ScanKey(e.contractId.value)
  {
  }

  lemma {:induction false} ScanAccepts(
    events: seq<ContractEventRecord>, x: Expected, m: PolicyManifest, hashes: WasmHashes)
    ensures ScanPolicy(events, x, m, hashes).Ok? <==>
      AllApproved(events, x, m, hashes) && DistinctContractIds(events)
    ensures ScanPolicy(events, x, m, hashes).Ok? ==> ScanMatches(events, ScanPolicy(events, x, m, hashes).value)
    decreases |events|
  {
    if events != [] {
      var front, last := events[..|events| - 1], events[|events| - 1];
      ScanAccepts(front, x, m, hashes);
      assert events == front + [last];
      assert AllApproved(events, x, m, hashes) <==>
        AllApproved(front, x, m, hashes) && PolicyApproved(last, x, m, hashes);
      assert DistinctContractIds(events) ==> DistinctContractIds(front) by {
        assert forall i :: 0 <= i < |front| ==> front[i] == events[i];
      }
      if ScanPolicy(front, x, m, hashes).Ok? && PolicyApproved(last, x, m, hashes) {
        ScanLast(events, ScanPolicy(front, x, m, hashes).value, x, m, hashes);
      }
    }
  }

  lemma SeenIffContract(events: seq<ContractEventRecord>, st: ScanState, id: string)
    requires ScanMatches(events, st)
    ensures ScanKey(id) in st.seen <==> exists i :: 0 <= i < |events| && events[i].contractId == Some(id)
  {
    if ScanKey(id) in st.seen {
      var i :| 0 <= i < |events| && ScanKey(id) == ScanKey(events[i].contractId.value);
      ScanKeyInjective(events[i].contractId.value, id);
    }
  }

  lemma DistinctSnoc(events: seq<ContractEventRecord>)
    requires events != []
    ensures DistinctContractIds(events) <==>
      && DistinctContractIds(events[..|events| - 1])
      && !exists i :: 0 <= i < |events| - 1 && events[i].contractId == events[|events| - 1].contractId
  {
  }

  /** The last event is new to the scan exactly when its contract is. */
  lemma ScanLast(
    events: seq<ContractEventRecord>, st: ScanState, x: Expected, m: PolicyManifest, hashes: WasmHashes)
    requires events != [] && ScanMatches(events[..|events| - 1], st)
    requires PolicyApproved(events[|events| - 1], x, m, hashes)
    requires DistinctContractIds(events[..|events| - 1])
    ensures
      var r := ScanOne(st, events[|events| - 1], x, m, hashes);
      && (r.Ok? <==> DistinctContractIds(events))
      && (r.Ok? ==> ScanMatches(events, r.value))
  {
    var front, last := events[..|events| - 1], events[|events| - 1];
    ApprovedKey(last, x, m, hashes);
    SeenIffContract(front, st, last.contractId.value);
    DistinctSnoc(events);
    ScanGrows(events, st);
  }

  lemma ScanGrows(events: seq<ContractEventRecord>, st: ScanState)
    requires events != [] && ScanMatches(events[..|events| - 1], st)
    ensures ScanMatches(events, ScanState(st.seen + {ScanKey(events[|events| - 1].contractId.value)},
                                          st.approved + [events[|events| - 1].contractId.value]))
  {
  }

  // ---- The verdict is the predicate ----

  lemma OnlyCopies<T>(s: seq<T>, t: T)
    requires forall i :: 0 <= i < |s| ==> s[i] == t
    requires multiset(s)[t] == 1
    ensures s == [t]
  {
    assert t in multiset(s);
    if |s| >= 2 {
      CountOnce(s, 0, 1);
    }
  }

  lemma SingletonIsSole(events: seq<DiagnosticEvent>, transfers: seq<ContractEventRecord>, x: Expected)
    requires forall e: ContractEventRecord ::
               multiset(transfers)[e] == if TransferNamed(e) then multiset(events)[e] else 0
    requires |transfers| == 1 && RequiredTransfer(transfers[0], x)
    ensures SoleTransfer(multiset(events), transfers[0], x)
  {
  }

  lemma SoleIsSingleton(
    events: seq<DiagnosticEvent>, transfers: seq<ContractEventRecord>, t: DiagnosticEvent, x: Expected)
    requires forall e: ContractEventRecord ::
               multiset(transfers)[e] == if TransferNamed(e) then multiset(events)[e] else 0
    requires SoleTransfer(multiset(events), t, x)
    ensures transfers == [t]
  {
    forall i | 0 <= i < |transfers| ensures transfers[i] == t {
      assert transfers[i] in multiset(transfers);
    }
    assert TransferNamed(t);
    OnlyCopies(transfers, t);
  }

  lemma SoleIffSingleton(events: seq<DiagnosticEvent>, parsed: seq<ContractEventRecord>, x: Expected)
    requires SameCounts(parsed, events)
    ensures
      var transfers := Select(true, parsed);
      |transfers| == 1 && RequiredTransfer(transfers[0], x) <==> exists t :: SoleTransfer(multiset(events), t, x)
  {
    var transfers := Select(true, parsed);
    SelectCounts(true, parsed);
    if |transfers| == 1 && RequiredTransfer(transfers[0], x) {
      SingletonIsSole(events, transfers, x);
    } else if exists t :: SoleTransfer(multiset(events), t, x) {
      var t :| SoleTransfer(multiset(events), t, x);
      SoleIsSingleton(events, transfers, t, x);
    }
  }

  lemma PolicyMembers(events: seq<DiagnosticEvent>, parsed: seq<ContractEventRecord>)
    requires SameCounts(parsed, events)
    ensures forall e :: e in Select(false, parsed) <==> e in events && PolicyEvent(e)
    ensures forall e :: e in Select(false, parsed) ==> multiset(Select(false, parsed))[e] == multiset(events)[e]
  {
    var policy := Select(false, parsed);
    SelectCounts(false, parsed);
    forall e ensures e in policy <==> e in events && PolicyEvent(e) {
      assert e in policy <==> e in multiset(policy);
      assert e in events <==> e in multiset(events);
    }
  }

  lemma PolicyIffScanned(
    events: seq<DiagnosticEvent>, parsed: seq<ContractEventRecord>, x: Expected, m: PolicyManifest, hashes: WasmHashes)
    requires SameCounts(parsed, events)
    ensures ScanPolicy(Select(false, parsed), x, m, hashes).Ok? <==>
      && (forall e :: e in events && PolicyEvent(e) ==> multiset(events)[e] == 1 && PolicyApproved(e, x, m, hashes))
      && OneEventPerContract(multiset(events))
  {
    var policy := Select(false, parsed);
    PolicyMembers(events, parsed);
    ScanAccepts(policy, x, m, hashes);
    DistinctIffCounted(policy);
    assert forall e :: e in events <==> e in multiset(events);
  }

  /** The approved list holds each contract with a policy event, once. */
  lemma ApprovedAreWitnessed(
    events: seq<DiagnosticEvent>, parsed: seq<ContractEventRecord>, x: Expected, m: PolicyManifest, hashes: WasmHashes)
    requires SameCounts(parsed, events) && ScanPolicy(Select(false, parsed), x, m, hashes).Ok?
    ensures
      var approved := ScanPolicy(Select(false, parsed), x, m, hashes).value.approved;
      && (forall id :: id in approved <==> Witnessed(multiset(events), id))
      && NoRepeats(approved)
  {
    var policy := Select(false, parsed);
    PolicyMembers(events, parsed);
    ScanAccepts(policy, x, m, hashes);
    ListedIffWitnessed(events, policy, ScanPolicy(policy, x, m, hashes).value);
  }

  lemma ListedIffWitnessed(events: seq<DiagnosticEvent>, policy: seq<ContractEventRecord>, st: ScanState)
    requires forall e :: e in policy <==> e in events && PolicyEvent(e)
    requires ScanMatches(policy, st) && DistinctContractIds(policy)
    ensures forall id :: id in st.approved <==> Witnessed(multiset(events), id)
    ensures NoRepeats(st.approved)
  {
    forall id ensures id in st.approved <==> Witnessed(multiset(events), id) {
      if id in st.approved {
        var i :| 0 <= i < |st.approved| && st.approved[i] == id;
        assert policy[i] in policy;
      }
      if Witnessed(multiset(events), id) {
        var e :| e in multiset(events) && PolicyEvent(e) && e.contractId == Some(id);
        assert e in events && e in policy;
        var i :| 0 <= i < |policy| && policy[i] == e;
        assert st.approved[i] == id;
      }
    }
  }

  lemma PolicyPartIff(
    events: seq<DiagnosticEvent>, parsed: seq<ContractEventRecord>, x: Expected, m: PolicyManifest, hashes: WasmHashes)
    requires SameCounts(parsed, events)
    ensures
      var scan := ScanPolicy(Select(false, parsed), x, m, hashes);
      scan.Ok? && RequiredSeen(m, scan.value.approved) <==> PolicyPart(multiset(events), x, m, hashes)
  {
    var scan := ScanPolicy(Select(false, parsed), x, m, hashes);
    PolicyIffScanned(events, parsed, x, m, hashes);
    assert forall e :: e in events <==> e in multiset(events);
    if scan.Ok? {
      ApprovedAreWitnessed(events, parsed, x, m, hashes);
      assert RequiredSeen(m, scan.value.approved) <==>
        forall a | a in m.adapters && a.required :: Witnessed(multiset(events), a.contractId);
    }
  }

  /** The looping validator accepts exactly the acceptable multisets. */
  lemma VerdictIffAcceptable(
    events: seq<DiagnosticEvent>, x: Expected, m: PolicyManifest, hashes: WasmHashes)
    ensures Verdict(events, x, m, hashes).Accepted? <==> Acceptable(multiset(events), x, m, hashes)
    ensures Verdict(events, x, m, hashes).Accepted? ==>
      && NoRepeats(Verdict(events, x, m, hashes).approved)
      && forall id :: id in Verdict(events, x, m, hashes).approved <==> Witnessed(multiset(events), id)
  {
    AcceptedIffAcceptable(events, x, m, hashes);
    ParseCounts(events);
    if Verdict(events, x, m, hashes).Accepted? {
      ApprovedAreWitnessed(events, ParseEvents(events).value, x, m, hashes);
    }
  }

  lemma AcceptedIffAcceptable(
    events: seq<DiagnosticEvent>, x: Expected, m: PolicyManifest, hashes: WasmHashes)
    ensures Verdict(events, x, m, hashes).Accepted? <==> Acceptable(multiset(events), x, m, hashes)
  {
    ParseCounts(events);
    assert forall e :: e in events <==> e in multiset(events);
    if ParseEvents(events).Ok? {
      var parsed := ParseEvents(events).value;
      SoleIffSingleton(events, parsed, x);
      PolicyPartIff(events, parsed, x, m, hashes);
    }
  }

  // ---- Order and skipped events ----

  /** The events the validator looks at, in order. */
  function Relevants(events: seq<DiagnosticEvent>): seq<DiagnosticEvent> {
    if events == [] then []
    else
      var kept := Relevants(events[..|events| - 1]);
      if Relevant(events[|events| - 1]) then kept + [events[|events| - 1]] else kept
  }

  lemma {:induction false} RelevantCounts(events: seq<DiagnosticEvent>)
    ensures forall e :: multiset(Relevants(events))[e] == if Relevant(e) then multiset(events)[e] else 0
    decreases |events|
  {
    if events != [] {
      RelevantCounts(events[..|events| - 1]);
      SnocCount(events);
    }
  }

  lemma OnlyRelevantMatter(
    events: seq<DiagnosticEvent>, x: Expected, m: PolicyManifest, hashes: WasmHashes)
    ensures Acceptable(multiset(events), x, m, hashes) <==> Acceptable(multiset(Relevants(events)), x, m, hashes)
    ensures forall id :: Witnessed(multiset(events), id) <==> Witnessed(multiset(Relevants(events)), id)
  {
    RelevantCounts(events);
    var a, b := multiset(events), multiset(Relevants(events));
    assert forall e :: Relevant(e) ==> a[e] == b[e];
    SameRelevant(a, b, x, m, hashes);
    SameRelevant(b, a, x, m, hashes);
  }

  lemma SamePolicyPart(
    a: multiset<DiagnosticEvent>, b: multiset<DiagnosticEvent>, x: Expected, m: PolicyManifest, hashes: WasmHashes)
    requires forall e :: PolicyEvent(e) ==> a[e] == b[e]
    ensures PolicyPart(a, x, m, hashes) ==> PolicyPart(b, x, m, hashes)
  {
    SameWitnesses(a, b);
    if PolicyPart(a, x, m, hashes) {
      forall e | e in b && PolicyEvent(e) ensures b[e] == 1 && PolicyApproved(e, x, m, hashes) {
        assert e in a;
      }
    }
  }

  lemma SameWitnesses(a: multiset<DiagnosticEvent>, b: multiset<DiagnosticEvent>)
    requires forall e :: PolicyEvent(e) ==> a[e] == b[e]
    ensures forall id :: Witnessed(a, id) ==> Witnessed(b, id)
  {
  }

  lemma SameSole(a: multiset<DiagnosticEvent>, b: multiset<DiagnosticEvent>, t: DiagnosticEvent, x: Expected)
    requires forall e :: Relevant(e) ==> a[e] == b[e]
    requires SoleTransfer(a, t, x)
    ensures SoleTransfer(b, t, x)
  {
  }

  lemma SameRelevant(
    a: multiset<DiagnosticEvent>, b: multiset<DiagnosticEvent>, x: Expected, m: PolicyManifest, hashes: WasmHashes)
    requires forall e :: Relevant(e) ==> a[e] == b[e]
    ensures Acceptable(a, x, m, hashes) ==> Acceptable(b, x, m, hashes)
    ensures forall id :: Witnessed(a, id) ==> Witnessed(b, id)
  {
    assert forall e :: PolicyEvent(e) ==> Relevant(e);
    SameWitnesses(a, b);
    SamePolicyPart(a, b, x, m, hashes);
    if exists t :: SoleTransfer(a, t, x) {
      var t :| SoleTransfer(a, t, x);
      SameSole(a, b, t, x);
    }
  }

  /**
    Acceptance depends only on the multiset of relevant events: reordering the stream, or inserting or deleting
    well-formed events of other kinds, changes neither the verdict nor the set of approved contracts.
   */
  lemma OrderAndSkippedEventsDoNotMatter(
    a: seq<DiagnosticEvent>, b: seq<DiagnosticEvent>, x: Expected, m: PolicyManifest, hashes: WasmHashes)
    requires multiset(Relevants(a)) == multiset(Relevants(b))
    ensures Verdict(a, x, m, hashes).Accepted? <==> Verdict(b, x, m, hashes).Accepted?
    ensures Verdict(a, x, m, hashes).Accepted? ==>
      forall id :: id in Verdict(a, x, m, hashes).approved <==> id in Verdict(b, x, m, hashes).approved
  {
    VerdictIffAcceptable(a, x, m, hashes);
    VerdictIffAcceptable(b, x, m, hashes);
    OnlyRelevantMatter(a, x, m, hashes);
    OnlyRelevantMatter(b, x, m, hashes);
  }

  lemma PermutationKeepsRelevant(a: seq<DiagnosticEvent>, b: seq<DiagnosticEvent>)
    requires multiset(a) == multiset(b)
    ensures multiset(Relevants(a)) == multiset(Relevants(b))
  {
    RelevantCounts(a);
    RelevantCounts(b);
  }

  lemma InsertionKeepsRelevant(before: seq<DiagnosticEvent>, skipped: seq<DiagnosticEvent>, after: seq<DiagnosticEvent>)
    requires forall e :: e in skipped ==> !Relevant(e)
    ensures multiset(Relevants(before + skipped + after)) == multiset(Relevants(before + after))
  {
    RelevantCounts(before + skipped + after);
    RelevantCounts(before + after);
    forall e | Relevant(e) ensures multiset(before + skipped + after)[e] == multiset(before + after)[e] {
      assert e !in skipped;
      assert multiset(skipped)[e] == 0;
    }
  }

  // ---- Production manifests ----

  /** The one adapter's event: its pinned contract with its pinned code, and this payment's context. */
  predicate PinnedPolicyEvent(p: DiagnosticEvent, x: Expected, m: PolicyManifest, hashes: WasmHashes)
    requires |m.adapters| == 1 && ProductionAdapter(m.adapters[0])
  {
    && Parsable(p)
    && p.contractId.value == m.adapters[0].contractId
    && RunsPinned(hashes, m.adapters[0].contractId, m.adapters[0].expectedWasmHash.value)
    && SpendingLimitError(p, x).None?
  }

  ghost predicate ExactPair(
    relevant: multiset<DiagnosticEvent>, x: Expected, m: PolicyManifest, hashes: WasmHashes)
    requires |m.adapters| == 1 && ProductionAdapter(m.adapters[0])
  {
    exists t, p ::
      && relevant == multiset{t, p}
      && Parsable(t) && RequiredTransfer(t, x)
      && PinnedPolicyEvent(p, x, m, hashes)
  }

  lemma ApprovedIffPinned(p: DiagnosticEvent, x: Expected, m: PolicyManifest, hashes: WasmHashes)
    requires |m.adapters| == 1 && ProductionAdapter(m.adapters[0])
    ensures PolicyApproved(p, x, m, hashes) <==> PinnedPolicyEvent(p, x, m, hashes)
    ensures PinnedPolicyEvent(p, x, m, hashes) ==> PolicyEvent(p)
  {
  }

  lemma AcceptableIsPair(
    relevant: multiset<DiagnosticEvent>, x: Expected, m: PolicyManifest, hashes: WasmHashes)
    requires |m.adapters| == 1 && ProductionAdapter(m.adapters[0])
    requires forall e :: e in relevant ==> Relevant(e)
    requires Acceptable(relevant, x, m, hashes)
    ensures ExactPair(relevant, x, m, hashes)
  {
    var t :| SoleTransfer(relevant, t, x);
    var a := m.adapters[0];
    assert a in m.adapters;
    var p :| p in relevant && PolicyEvent(p) && p.contractId == Some(a.contractId);
    ApprovedIffPinned(p, x, m, hashes);
    forall e | e in relevant ensures e in {t, p} && relevant[e] == 1 {
      if PolicyEvent(e) {
        ApprovedIffPinned(e, x, m, hashes);
      }
    }
    assert relevant == multiset{t, p};
  }

  lemma PairIsAcceptable(
    t: DiagnosticEvent, p: DiagnosticEvent, x: Expected, m: PolicyManifest, hashes: WasmHashes)
    requires |m.adapters| == 1 && ProductionAdapter(m.adapters[0])
    requires BoundTo(m, x)
    requires Parsable(t) && RequiredTransfer(t, x) && PinnedPolicyEvent(p, x, m, hashes)
    ensures Acceptable(multiset{t, p}, x, m, hashes)
  {
    ApprovedIffPinned(p, x, m, hashes);
    assert TransferNamed(t) && !TransferNamed(p);
    PairIsSole(multiset{t, p}, t, p, x);
    PairIsPolicyPart(multiset{t, p}, t, p, x, m, hashes);
  }

  lemma PairMembers(pair: multiset<DiagnosticEvent>, t: DiagnosticEvent, p: DiagnosticEvent)
    requires t != p && pair == multiset{t, p}
    ensures forall e :: e in pair <==> e == t || e == p
    ensures pair[t] == 1 && pair[p] == 1
  {
  }

  lemma PairIsSole(pair: multiset<DiagnosticEvent>, t: DiagnosticEvent, p: DiagnosticEvent, x: Expected)
    requires pair == multiset{t, p} && Parsable(t) && RequiredTransfer(t, x) && !TransferNamed(p)
    ensures SoleTransfer(pair, t, x)
  {
    assert TransferNamed(t);
    PairMembers(pair, t, p);
  }

  lemma PairIsPolicyPart(
    pair: multiset<DiagnosticEvent>, t: DiagnosticEvent, p: DiagnosticEvent,
    x: Expected, m: PolicyManifest, hashes: WasmHashes)
    requires pair == multiset{t, p} && TransferNamed(t)
    requires |m.adapters| == 1 && p.Event? && p.contractId == Some(m.adapters[0].contractId)
    requires PolicyEvent(p) && PolicyApproved(p, x, m, hashes)
    ensures PolicyPart(pair, x, m, hashes)
  {
    PairMembers(pair, t, p);
    assert forall e :: e in pair && PolicyEvent(e) ==> e == p;
    assert Witnessed(pair, m.adapters[0].contractId);
  }

  /**
    Under a production manifest the accepted streams are those whose relevant events are exactly two: the required
    transfer, and one spending-limit event of the pinned contract with the pinned code.
   */
  lemma ProductionLeavesTwoEvents(
    events: seq<DiagnosticEvent>, x: Expected, m: PolicyManifest, hashes: WasmHashes)
    requires Production(m)
    ensures Verdict(events, x, m, hashes).Accepted? <==>
      BoundTo(m, x) && ExactPair(multiset(Relevants(events)), x, m, hashes)
  {
    var relevant := multiset(Relevants(events));
    RelevantCounts(events);
    VerdictIffAcceptable(events, x, m, hashes);
    OnlyRelevantMatter(events, x, m, hashes);
    assert forall e :: e in relevant ==> Relevant(e);
    if Acceptable(relevant, x, m, hashes) {
      AcceptableIsPair(relevant, x, m, hashes);
    }
    if BoundTo(m, x) && ExactPair(relevant, x, m, hashes) {
      var t, p :| relevant == multiset{t, p} && Parsable(t) && RequiredTransfer(t, x)
                  && PinnedPolicyEvent(p, x, m, hashes);
      PairIsAcceptable(t, p, x, m, hashes);
    }
  }

  /**
    No other code: under a production manifest every stream is refused when nothing was observed for the adapter's
    contract, or when what was observed differs from the pin in length or, beyond case, in some character.
   */
  lemma DifferingCodeIsRefused(
    events: seq<DiagnosticEvent>, x: Expected, m: PolicyManifest, hashes: WasmHashes, i: nat)
    requires Production(m)
    requires
      var id, pin := m.adapters[0].contractId, m.adapters[0].expectedWasmHash.value;
      || id !in hashes || |hashes[id]| != |pin|
      || (i < |pin| && !SameLetter(hashes[id][i], pin[i]))
    ensures !Verdict(events, x, m, hashes).Accepted?
  {
    ProductionLeavesTwoEvents(events, x, m, hashes);
  }
}
