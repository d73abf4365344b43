/** The facilitator's policy manifest and the production checks on it. */
module Manifest {
  import opened Wrappers
  import opened X402
  import opened Soroban
  import opened JsText

  const OZ_SPENDING_LIMIT := "openzeppelin-stellar-accounts/spending-limit@0.7.2"

  datatype Adapter = Adapter(kind: string, contractId: string, expectedWasmHash: Option<string>, required: bool)

  datatype RecipientBinding = RecipientBinding(contractId: string, expectedWasmHash: string)

  datatype PolicyManifest = PolicyManifest(
    id: string,
    network: string,
    smartAccount: Option<string>,
    smartAccountWasmHash: Option<string>,
    expectedRuleId: Option<int>,
    allowedRuleIds: Option<seq<int>>,
    recipientPolicy: Option<RecipientBinding>,
    adapters: seq<Adapter>)

  const MAX_SAFE_INTEGER := 0x1f_ffff_ffff_ffff

  datatype ManifestError =
    | IdRequired
    | SmartAccountInvalid
    | SmartAccountHashInvalid
    | NothingPinned
    | ExpectedRuleInvalid
    | AllowedRulesInvalid
    | RecipientPolicyRequired
    | RecipientHashRequired
    | OneAdapterRequired
    | AdapterKindUnsupported
    | AdapterContractInvalid
    | AdapterNotRequired
    | AdapterHashMissing
    | AdapterHashInvalid
    | AdapterDuplicated

  predicate IsRuleId(n: int) {
    0 <= n <= MAX_SAFE_INTEGER
  }

  ghost predicate NoRepeats<T>(s: seq<T>) {
    forall i, j :: 0 <= i < j < |s| ==> s[i] != s[j]
  }

  /** An adapter a production manifest may carry. */
  predicate ProductionAdapter(a: Adapter) {
    && a.kind == OZ_SPENDING_LIMIT
    && IsContractAddress(a.contractId)
    && a.required
    && a.expectedWasmHash.Some? && IsHex64(a.expectedWasmHash.value)
  }

  /** A production manifest: pinned payer identity, rule selection or recipient policy, and exactly one adapter. */
  ghost predicate Production(m: PolicyManifest) {
    && !IsBlank(m.id)
    && (Truthy(m.smartAccount) ==> IsContractAddress(m.smartAccount.value))
    && (Truthy(m.smartAccountWasmHash) ==> IsHex64(m.smartAccountWasmHash.value))
    && (Truthy(m.smartAccount) || Truthy(m.smartAccountWasmHash))
    && (m.expectedRuleId.Some? ==> 0 <= m.expectedRuleId.value <= 9007199254740991)
    && (m.allowedRuleIds.Some? ==>
          && m.allowedRuleIds.value != []
          && (forall i :: 0 <= i < |m.allowedRuleIds.value| ==> 0 <= m.allowedRuleIds.value[i] <= 9007199254740991)
          && NoRepeats(m.allowedRuleIds.value))
    && (m.expectedRuleId.None? ==>
          && m.recipientPolicy.Some?
          && IsContractAddress(m.recipientPolicy.value.contractId)
          && IsHex64(m.recipientPolicy.value.expectedWasmHash))
    && |m.adapters| == 1
    && ProductionAdapter(m.adapters[0])
  }

  lemma NoRepeatsSnoc<T>(front: seq<T>, last: T)
    ensures NoRepeats(front + [last]) <==> NoRepeats(front) && last !in front
  {
    var s := front + [last];
    assert forall i :: 0 <= i < |front| ==> s[i] == front[i];
    assert s[|front|] == last;
  }

  /** A sequence is free of repetitions when its set of elements is as large as it is long. */
  lemma {:induction false} DistinctAsSet(s: seq<int>)
    ensures |set x | x in s| <= |s|
    ensures |set x | x in s| == |s| <==> NoRepeats(s)
    decreases |s|
  {
    if s != [] {
      var front, last := s[..|s| - 1], s[|s| - 1];
      DistinctAsSet(front);
      NoRepeatsSnoc(front, last);
      assert s == front + [last];
      assert (set x | x in s) == (set x | x in front) + {last};
    }
  }

  /** The check throws on the first violation; it returns normally exactly on production manifests. */
  method AssertProductionManifest(m: PolicyManifest) returns (error: Option<ManifestError>)
    ensures error.None? <==> Production(m)
  {
    if IsBlank(m.id) {
      return Some(IdRequired);
    }
    if Truthy(m.smartAccount) && !IsContractAddress(m.smartAccount.value) {
      return Some(SmartAccountInvalid);
    }
    if Truthy(m.smartAccountWasmHash) && !IsHex64(m.smartAccountWasmHash.value) {
      return Some(SmartAccountHashInvalid);
    }
    if !Truthy(m.smartAccount) && !Truthy(m.smartAccountWasmHash) {
      return Some(NothingPinned);
    }
    if m.expectedRuleId.Some? && !IsRuleId(m.expectedRuleId.value) {
      return Some(ExpectedRuleInvalid);
    }
    if m.allowedRuleIds.Some? {
      var ids := m.allowedRuleIds.value;
      DistinctAsSet(ids);
      if |ids| == 0 || (exists i :: 0 <= i < |ids| && !IsRuleId(ids[i])) || |set x | x in ids| != |ids| {
        return Some(AllowedRulesInvalid);
      }
    }
    if m.expectedRuleId.None? {
      if m.recipientPolicy.None? || !IsContractAddress(m.recipientPolicy.value.contractId) {
        return Some(RecipientPolicyRequired);
      }
      if !IsHex64(m.recipientPolicy.value.expectedWasmHash) {
        return Some(RecipientHashRequired);
      }
    }
    if |m.adapters| != 1 {
      return Some(OneAdapterRequired);
    }
    error := CheckAdapters(m.adapters);
  }

  function Identity(a: Adapter): string {
    a.kind + ":" + a.contractId
  }

  ghost predicate DistinctContracts(adapters: seq<Adapter>) {
    forall j, k :: 0 <= j < k < |adapters| ==> adapters[j].contractId != adapters[k].contractId
  }

  /** The adapter loop and its set of identities, for any number of adapters. */
  method CheckAdapters(adapters: seq<Adapter>) returns (error: Option<ManifestError>)
    ensures error.None? <==>
      && (forall i :: 0 <= i < |adapters| ==> ProductionAdapter(adapters[i]))
      && DistinctContracts(adapters)
  {
    var identities: set<string> := {};
    for i := 0 to |adapters|
      invariant forall j :: 0 <= j < i ==> ProductionAdapter(adapters[j])
      invariant forall j, k :: 0 <= j < k < i ==> adapters[j].contractId != adapters[k].contractId
      invariant forall s :: s in identities <==> exists j :: 0 <= j < i && s == Identity(adapters[j])
    {
      var adapter := adapters[i];
      if adapter.kind != OZ_SPENDING_LIMIT {
        return Some(AdapterKindUnsupported);
      }
      if !IsContractAddress(adapter.contractId) {
        return Some(AdapterContractInvalid);
      }
      if !adapter.required {
        return Some(AdapterNotRequired);
      }
      if !Truthy(adapter.expectedWasmHash) {
        return Some(AdapterHashMissing);
      }
      if !IsHex64(adapter.expectedWasmHash.value) {
        return Some(AdapterHashInvalid);
      }
      if Identity(adapter) in identities {
        var j :| 0 <= j < i && Identity(adapter) == Identity(adapters[j]);
        SameKindSameContract(adapters[j], adapter);
        return Some(AdapterDuplicated);
      }
      forall j | 0 <= j < i ensures adapters[j].contractId != adapter.contractId {
        assert Identity(adapters[j]) in identities;
      }
      identities := identities + {Identity(adapter)};
    }
    error := None;
  }

  lemma SameKindSameContract(a: Adapter, b: Adapter)
    requires a.kind == b.kind && Identity(a) == Identity(b)
    ensures a.contractId == b.contractId
  {
    var n := |a.kind| + 1;
    assert Identity(a)[n..] == a.contractId && Identity(b)[n..] == b.contractId;
  }
}
