/** The on-chain recipient policy: parameters per account and rule, and the transfer check they enforce. */
module RecipientPolicy {
  import opened Wrappers
  import opened Soroban
  import opened Authorization
  import PolicyVerify

  datatype PolicyParams = PolicyParams(recipient: string, token: string)

  datatype PolicyError = NotAuthorized | NotInstalled | AlreadyInstalled | NotAllowed | InvalidConfiguration

  datatype ContextType = DefaultContext | CallContractContext(contract: string) | CreateContractContext

  /** The operation a policy is asked about. */
  datatype Context = ContractContext(contract: string, fn: string, args: seq<ScVal>) | OtherContext

  type Key = (string, u32)
  type Storage = map<Key, PolicyParams>

  function AmountOf128(v: ScVal): int
    requires v.I128?
  {
    v.hi * TWO_TO_THE_64 + v.lo
  }

  predicate ValidateTransfer(context: Context, account: string, params: PolicyParams) {
    && context.ContractContext?
    && context.contract == params.token && context.fn == "transfer" && |context.args| == 3
    && context.args[0].Address? && context.args[1].Address? && context.args[2].I128?
    && context.args[0].strkey == account
    && context.args[1].strkey == params.recipient
    && AmountOf128(context.args[2]) > 0
  }

  /** One call of the contract; authorized says whether the account's authorization check passes. */
  datatype Call =
    | Install(authorized: bool, key: Key, params: PolicyParams, contextType: ContextType)
    | Uninstall(authorized: bool, key: Key)
    | Enforce(authorized: bool, key: Key, signers: nat, context: Context)

  /** A panic rolls the storage back, so only the absence of an error changes it. */
  function ErrorOf(s: Storage, call: Call): Option<PolicyError> {
    if !call.authorized then Some(NotAuthorized)
    else
      match call
      case Install(_, key, params, contextType) =>
        if params.token == params.recipient || contextType != CallContractContext(params.token)
        then Some(InvalidConfiguration)
        else if key in s then Some(AlreadyInstalled)
        else None
      case Uninstall(_, key) => if key !in s then Some(NotInstalled) else None
      case Enforce(_, key, signers, context) =>
        if signers == 0 then Some(NotAllowed)
        else if key !in s then Some(NotInstalled)
        else if !ValidateTransfer(context, key.0, s[key]) then Some(NotAllowed)
        else None
  }

  function After(s: Storage, call: Call): Storage {
    if ErrorOf(s, call).Some? then s
    else
      match call
      case Install(_, key, params, _) => s[key := params]
      case Uninstall(_, key) => s - {key}
      case Enforce(_, _, _, _) => s
  }

  /** A positive i128, seen from its two words. */
  predicate PositiveI128(v: ScVal) {
    v.I128? && (v.hi > 0 || (v.hi == 0 && v.lo > 0))
  }

  /** A transfer of the token by the account to the recipient, of some positive amount. */
  predicate AllowedTransfer(context: Context, account: string, params: PolicyParams) {
    && context.ContractContext? && context.contract == params.token && context.fn == "transfer"
    && |context.args| == 3 && PositiveI128(context.args[2])
    && context.args[..2] == [Address(account), Address(params.recipient)]
  }

  lemma AllowedIff(context: Context, account: string, params: PolicyParams)
    ensures ValidateTransfer(context, account, params) <==> AllowedTransfer(context, account, params)
  {
    if context.ContractContext? && |context.args| == 3 {
      assert context.args[..2] == [context.args[0], context.args[1]];
    }
  }

  /**
    Who may do what: nothing happens without the account's authorization, an install needs a sound configuration for
    its own token and a free key, an uninstall a taken one, and enforcement passes signed, installed and allowed
    transfers. Every failing call leaves the storage alone.
   */
  lemma CallOutcome(s: Storage, call: Call)
    ensures ErrorOf(s, call) == Some(NotAuthorized) <==> !call.authorized
    ensures ErrorOf(s, call).Some? ==> After(s, call) == s
    ensures call.Install? ==>
      && (ErrorOf(s, call).None? <==>
            && call.authorized && call.key !in s && call.params.recipient != call.params.token
            && call.contextType.CallContractContext? && call.contextType.contract == call.params.token)
      && (ErrorOf(s, call) == Some(AlreadyInstalled) ==> call.key in s)
      && (ErrorOf(s, call) == Some(InvalidConfiguration) ==>
            call.params.recipient == call.params.token || call.contextType != CallContractContext(call.params.token))
      && (ErrorOf(s, call).None? ==> After(s, call) == s[call.key := call.params])
    ensures call.Uninstall? ==>
      && (ErrorOf(s, call).None? <==> call.authorized && call.key in s)
      && (call.authorized && call.key !in s ==> ErrorOf(s, call) == Some(NotInstalled))
      && (ErrorOf(s, call).None? ==> After(s, call) == map k | k in s && k != call.key :: s[k])
    ensures call.Enforce? ==>
      && (ErrorOf(s, call).None? <==>
            && call.authorized && call.signers > 0 && call.key in s
            && AllowedTransfer(call.context, call.key.0, s[call.key]))
      && (ErrorOf(s, call) == Some(NotInstalled) <==> call.authorized && call.signers > 0 && call.key !in s)
      && After(s, call) == s
  {
    if call.Enforce? && call.key in s {
      AllowedIff(call.context, call.key.0, s[call.key]);
    }
  }

  class RecipientPolicyContract {
    var storage: Storage

    constructor ()
      ensures storage == map[]
    {
      storage := map[];
    }

    method Install(authorized: bool, params: PolicyParams, contextType: ContextType, rule: u32, account: string)
      returns (error: Option<PolicyError>)
      modifies this
      ensures error == ErrorOf(old(storage), Call.Install(authorized, (account, rule), params, contextType))
      ensures storage == After(old(storage), Call.Install(authorized, (account, rule), params, contextType))
    {
      if !authorized {
        return Some(NotAuthorized);
      }
      if params.token == params.recipient || contextType != CallContractContext(params.token) {
        return Some(InvalidConfiguration);
      }
      var key := (account, rule);
      if key in storage {
        return Some(AlreadyInstalled);
      }
      storage := storage[key := params];
      error := None;
    }

    method Uninstall(authorized: bool, rule: u32, account: string) returns (error: Option<PolicyError>)
      modifies this
      ensures error == ErrorOf(old(storage), Call.Uninstall(authorized, (account, rule)))
      ensures storage == After(old(storage), Call.Uninstall(authorized, (account, rule)))
    {
      if !authorized {
        return Some(NotAuthorized);
      }
      var key := (account, rule);
      if key !in storage {
        return Some(NotInstalled);
      }
      storage := storage - {key};
      error := None;
    }

    method Enforce(authorized: bool, context: Context, signers: nat, rule: u32, account: string)
      returns (error: Option<PolicyError>)
      ensures error == ErrorOf(storage, Call.Enforce(authorized, (account, rule), signers, context))
    {
      if !authorized {
        return Some(NotAuthorized);
      }
      if signers == 0 {
        return Some(NotAllowed);
      }
      var params := GetConfig(rule, account);
      if params.Err? {
        return Some(params.error);
      }
      if !ValidateTransfer(context, account, params.value) {
        return Some(NotAllowed);
      }
      error := None;
    }

    method GetConfig(rule: u32, account: string) returns (params: Result<PolicyParams, PolicyError>)
      ensures params == ConfigOf(storage, (account, rule))
    {
      params := if (account, rule) in storage then Ok(storage[(account, rule)]) else Err(NotInstalled);
    }
  }

  // ---- Runs ----

  function Run(calls: seq<Call>): Storage {
    if calls == [] then map[] else After(Run(calls[..|calls| - 1]), calls[|calls| - 1])
  }

  /** Call i took effect on the storage the calls before it left. */
  predicate Succeeds(calls: seq<Call>, i: nat)
    requires i < |calls|
  {
    ErrorOf(Run(calls[..i]), calls[i]).None?
  }

  predicate InstalledAt(calls: seq<Call>, i: nat, key: Key, params: PolicyParams)
    requires i < |calls|
  {
    calls[i].Install? && calls[i].key == key && calls[i].params == params && Succeeds(calls, i)
  }

  predicate RemovedAt(calls: seq<Call>, i: nat, key: Key)
    requires i < |calls|
  {
    calls[i].Uninstall? && calls[i].key == key && Succeeds(calls, i)
  }

  ghost predicate StandsSince(calls: seq<Call>, i: nat, key: Key, params: PolicyParams)
    requires i < |calls|
  {
    InstalledAt(calls, i, key, params) && forall j :: i < j < |calls| ==> !RemovedAt(calls, j, key)
  }

  lemma PrefixSucceeds(calls: seq<Call>, i: nat)
    requires i < |calls| - 1
    ensures Succeeds(calls, i) <==> Succeeds(calls[..|calls| - 1], i)
  {
    assert calls[..|calls| - 1][..i] == calls[..i];
  }

  lemma StandsInPrefix(calls: seq<Call>, i: nat, key: Key, params: PolicyParams)
    requires i < |calls| - 1
    ensures StandsSince(calls, i, key, params) <==>
      StandsSince(calls[..|calls| - 1], i, key, params) && !RemovedAt(calls, |calls| - 1, key)
  {
    var front := calls[..|calls| - 1];
    forall j | 0 <= j < |front| ensures Succeeds(calls, j) <==> Succeeds(front, j) {
      PrefixSucceeds(calls, j);
    }
    assert forall j :: i < j < |front| ==> (RemovedAt(calls, j, key) <==> RemovedAt(front, j, key));
  }

  /**
    After any calls by any accounts, a key stores exactly the parameters of its last successful install that no
    successful uninstall of that key followed. Failed calls, enforcement and calls on other keys leave it alone.
   */
  lemma {:induction false} StoredIsLastUnremovedInstall(calls: seq<Call>, key: Key, params: PolicyParams)
    ensures key in Run(calls) && Run(calls)[key] == params
      <==> exists i :: 0 <= i < |calls| && StandsSince(calls, i, key, params)
    decreases |calls|
  {
    if calls != [] {
      var front, n := calls[..|calls| - 1], |calls| - 1;
      StoredIsLastUnremovedInstall(front, key, params);
      forall i | 0 <= i < n
        ensures StandsSince(calls, i, key, params) <==> StandsSince(front, i, key, params) && !RemovedAt(calls, n, key)
      {
        StandsInPrefix(calls, i, key, params);
      }
      if exists i :: 0 <= i < |front| && StandsSince(front, i, key, params) {
        var i :| 0 <= i < |front| && StandsSince(front, i, key, params);
        assert StandsSince(calls, i, key, params) <==> !RemovedAt(calls, n, key);
      }
      assert StandsSince(calls, n, key, params) <==> InstalledAt(calls, n, key, params);
    }
  }

  /** What reading a key reports: its last unremoved install, or that there is none. */
  function ConfigOf(s: Storage, key: Key): Result<PolicyParams, PolicyError> {
    if key in s then Ok(s[key]) else Err(NotInstalled)
  }

  /** Reading a key reports parameters exactly when they are its last unremoved install, and else that it has none. */
  lemma ConfigIsLastInstall(calls: seq<Call>, key: Key, params: PolicyParams)
    ensures ConfigOf(Run(calls), key) == Ok(params) <==>
      exists i :: 0 <= i < |calls| && StandsSince(calls, i, key, params)
    ensures ConfigOf(Run(calls), key).Err? ==> ConfigOf(Run(calls), key).error == NotInstalled
  {
    StoredIsLastUnremovedInstall(calls, key, params);
  }

  // ---- The facilitator's decision against the policy ----

  /** A lookup that reads the installed parameters. */
  ghost predicate Reads(lookUp: (u32, string) -> PolicyVerify.RuleReply, s: Storage) {
    forall rule: u32, account: string :: lookUp(rule, account) ==
      if (account, rule) in s
      then PolicyVerify.Installed(
             PolicyVerify.ObservedRule(rule, s[(account, rule)].token, s[(account, rule)].recipient))
      else PolicyVerify.NotInstalled
  }

  /** The context the account's signed root asks the policy about. */
  function ContextOf(root: Invocation): Context {
    if root.ContractCall? then ContractContext(root.contract, root.fn, root.args) else OtherContext
  }

  function PayerRoot(r: PolicyVerify.Request): Invocation
    requires PolicyVerify.PositiveAmount(r.req.amount) && PolicyVerify.PayerRootPays(r.tx, PolicyVerify.SpecOf(r))
  {
    PayerEntry(r.tx.value.operations[0].auth, PolicyVerify.SpecOf(r)).root
  }

  /** For a call that pays, the policy's remaining question is the type of the amount. */
  lemma PayingCallPasses(contract: string, fn: string, args: seq<ScVal>, t: TransferSpec)
    requires PolicyVerify.CallPays(contract, fn, args, t) && t.amount > 0
    ensures ValidateTransfer(ContractContext(contract, fn, args), t.from, PolicyParams(t.to, t.token))
      <==> args[2].I128?
  {
  }

  /**
    A payment the facilitator approves in dynamic mode, with lookups reading the policy's storage, finds its rule
    installed for the payer, and the policy enforces it exactly when the payer's signed amount is an i128.
   */
  lemma ApprovedIsEnforceableIffI128(r: PolicyVerify.Request, s: Storage, signers: nat)
    requires PolicyVerify.VerifyPolicyAwarePayment(r).Approved?
    requires r.manifest.expectedRuleId.None? && Reads(r.lookUp, s)
    requires signers > 0
    ensures PolicyVerify.PositiveAmount(r.req.amount) && PolicyVerify.PayerRootPays(r.tx, PolicyVerify.SpecOf(r))
    ensures
      var key := (r.payer, PolicyVerify.VerifyPolicyAwarePayment(r).ruleId);
      && key in s && s[key] == PolicyParams(r.req.payTo, r.req.asset)
      && (ErrorOf(s, Enforce(true, key, signers, ContextOf(PayerRoot(r)))).None? <==> PayerRoot(r).args[2].I128?)
  {
    PolicyVerify.ApprovedSpeaksOfOnePayment(r);
    var root := PayerRoot(r);
    var t := PolicyVerify.SpecOf(r);
    PayingCallPasses(root.contract, root.fn, root.args, t);
  }

  /** The payer's builder always writes an i128, so the payments it builds are enforceable. */
  lemma BuiltTransferPasses(spec: TransferSpec)
    requires TransferInvocation(spec).Ok? && spec.amount > 0
    ensures ValidateTransfer(ContextOf(TransferInvocation(spec).value), spec.from, PolicyParams(spec.to, spec.token))
  {
    var root := TransferInvocation(spec).value;
    PayingCallPasses(root.contract, root.fn, root.args, spec);
  }
}
