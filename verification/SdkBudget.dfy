/** What preflight guarantees over every overlapping run: only payments within their allowance are ever signed. */
module SdkBudget {
  import opened X402
  import opened EvidenceStore
  import opened SdkProtocol
  import opened SdkLifecycle
  import Amounts
  import opened Decimal

  /** The payment is in the allowance's terms that never change. */
  predicate WithinTerms(req: Requirements, terms: AllowanceIdentity) {
    && req.network == terms.network
    && req.asset == terms.assetContract
    && req.payTo in terms.allowedRecipients
    && req.amount != "" && AllDigits(req.amount) && Parse(req.amount) > 0
  }

  /** The allowance was active and had room for the amount when it was looked at. */
  predicate HasRoom(req: Requirements, allowance: Allowance) {
    && WithinTerms(req, allowance.identity)
    && allowance.status == ACTIVE
    && allowance.spentAtomic + Parse(req.amount) <= allowance.identity.maxSpendAtomic
  }

  predicate Authorized(p: Phase) {
    p.Signing? || p.Signed? || p.Submitted?
  }

  ghost predicate PhaseBudget(op: Op) {
    op.job.Payment? && Authorized(op.phase) ==> HasRoom(op.job.req, op.phase.allowance)
  }

  ghost predicate SignedWithin(s: State, k: nat) {
    && k in s.ops && s.ops[k].job.Payment?
    && s.ops[k].job.allowanceId in s.db.allowances
    && WithinTerms(s.ops[k].job.req, s.db.allowances[s.ops[k].job.allowanceId].identity)
  }

  ghost predicate Budget(s: State) {
    && (forall k :: k in s.ops ==> PhaseBudget(s.ops[k]))
    && (forall k :: k in s.built ==> SignedWithin(s, k))
  }

  /** Preflight allows exactly what is inside the terms of an active, unexpired allowance with room for it. */
  lemma AllowedIffRoom(req: Requirements, allowance: Allowance, ledger: int)
    ensures Preflight(req, allowance, ledger).Allowed? <==>
      HasRoom(req, allowance) && ledger <= allowance.identity.validUntilLedger
    ensures Preflight(req, allowance, ledger).Allowed? ==>
      Preflight(req, allowance, ledger).remaining
        == allowance.identity.maxSpendAtomic - allowance.spentAtomic - Parse(req.amount) >= 0
  {
    Amounts.AtomicAmounts(req.amount);
  }

  /** A refreshed allowance is active exactly when the chain answered, its ledger is in time and budget is left. */
  lemma ActiveIffRefreshedInTime(record: Allowance, chain: ChainReply)
    ensures Refreshed(record, chain).status == ACTIVE <==>
      && chain.Chain? && chain.ledger <= record.identity.validUntilLedger
      && chain.spent.GetOr(record.spentAtomic) < record.identity.maxSpendAtomic
    ensures Refreshed(record, chain).identity == record.identity
  {
  }

  /** The operation a step moves; the others stay as they are, and no operation changes its job. */
  lemma OthersStay(s: State, a: Action, k: nat)
    requires KeysMatch(s.db) && OpsOk(s) && Enabled(s, a) && k in s.ops
    ensures k in Next(s, a).ops && Next(s, a).ops[k].job == s.ops[k].job
    ensures a.WriteAllowance? || k != a.id ==> Next(s, a).ops[k] == s.ops[k]
  {
    if IsOpStep(a) {
      OpStepMoves(s, a);
    }
  }

  lemma ActorKeepsBudget(s: State, a: Action)
    requires Enabled(s, a) && !a.WriteAllowance?
    requires a.id in s.ops ==> PhaseBudget(s.ops[a.id])
    ensures a.id in Next(s, a).ops && PhaseBudget(Next(s, a).ops[a.id])
  {
    if a.Decide? {
      AllowedIffRoom(s.ops[a.id].job.req, s.ops[a.id].phase.allowance, a.ledger);
    }
  }

  lemma NoOtherStarts(s: State, a: Action, k: nat)
    requires Enabled(s, a) && k in Next(s, a).ops && (a.WriteAllowance? || k != a.id)
    ensures k in s.ops
  {
  }

  lemma PhasesKeepBudget(s: State, a: Action)
    requires KeysMatch(s.db) && OpsOk(s) && Enabled(s, a)
    requires forall k :: k in s.ops ==> PhaseBudget(s.ops[k])
    ensures forall k :: k in Next(s, a).ops ==> PhaseBudget(Next(s, a).ops[k])
  {
    if !a.WriteAllowance? {
      ActorKeepsBudget(s, a);
    }
    var t := Next(s, a);
    forall k | k in t.ops ensures PhaseBudget(t.ops[k]) {
      if a.WriteAllowance? || k != a.id {
        NoOtherStarts(s, a, k);
        OthersStay(s, a, k);
      }
    }
  }

  lemma BuiltLog(s: State, a: Action)
    requires Enabled(s, a)
    ensures Next(s, a).built == if a.Sign? && a.outcome.Built? then s.built + [a.id] else s.built
  {
  }

  lemma StaysSigned(s: State, t: State, k: nat)
    requires SignedWithin(s, k) && Extends(s.db, t.db) && k in t.ops && t.ops[k].job == s.ops[k].job
    ensures SignedWithin(t, k)
  {
  }

  lemma SigningIsWithin(s: State, k: nat)
    requires k in s.ops && s.ops[k].job.Payment? && s.ops[k].phase.Signing?
    requires OpOk(s.db, k, s.ops[k]) && PhaseBudget(s.ops[k])
    ensures SignedWithin(s, k)
  {
  }

  lemma StepKeepsBudget(s: State, a: Action)
    requires Inv(s) && Enabled(s, a) && Budget(s)
    ensures Budget(Next(s, a))
  {
    var t := Next(s, a);
    PhasesKeepBudget(s, a);
    StepExtends(s, a);
    BuiltLog(s, a);
    forall k | k in t.built ensures SignedWithin(t, k) {
      if k !in s.built {
        assert OpOk(s.db, k, s.ops[k]) && PhaseBudget(s.ops[k]);
        SigningIsWithin(s, k);
      }
      OthersStay(s, a, k);
      StaysSigned(s, t, k);
    }
  }

  lemma {:induction false} RunKeepsBudget(s: State, actions: seq<Action>)
    requires Inv(s) && Budget(s) && Runs(s, actions)
    ensures Budget(Final(s, actions))
    decreases |actions|
  {
    if actions != [] {
      StepKeepsInv(s, actions[0]);
      StepKeepsBudget(s, actions[0]);
      RunKeepsBudget(Next(s, actions[0]), actions[1..]);
    }
  }

  /**
    Over every interleaving, each payload ever signed pays an allowed recipient of its stored allowance a positive
    amount of its asset on its network, and what is still in flight had room in an active allowance when decided.
   */
  lemma SignedWithinAllowance(actions: seq<Action>, k: nat)
    requires Runs(INIT, actions) && k in Final(INIT, actions).built
    ensures
      var s := Final(INIT, actions);
      && SignedWithin(s, k)
      && k in s.db.attempts && s.db.attempts[k].identity.allowanceId in s.db.allowances
      && s.db.attempts[k].identity.payTo
           in s.db.allowances[s.db.attempts[k].identity.allowanceId].identity.allowedRecipients
      && s.db.attempts[k].identity.assetContract
           == s.db.allowances[s.db.attempts[k].identity.allowanceId].identity.assetContract
      && (Authorized(s.ops[k].phase) ==> HasRoom(s.ops[k].job.req, s.ops[k].phase.allowance))
  {
    RunKeepsInv(INIT, actions);
    RunKeepsBudget(INIT, actions);
    var s := Final(INIT, actions);
    assert PhaseBudget(s.ops[k]);
  }
}
