/**
  The graph of attempt states, and exactly when overlapping operations can leave it: when a payment that can still
  write its snapshot is overtaken by a reconciliation of its attempt.
 */
module SdkLifecycle {
  import opened Wrappers
  import opened X402
  import opened EvidenceStore
  import opened SdkProtocol

  predicate Edge(from: AttemptState, to: AttemptState) {
    match from
    case CREATED => to in {VALIDATED, BLOCKED}
    case VALIDATED => to in {SIGNED, BLOCKED}
    case SIGNED => to in {SUBMITTED, BLOCKED}
    case SUBMITTED => to in {SETTLED, UNLOCKED, UNKNOWN, BLOCKED}
    case UNKNOWN => to == SETTLED
    case SETTLED => false
    case UNLOCKED => false
    case BLOCKED => false
  }

  /** Every edge climbs, so the graph has no cycle. */
  function Rank(st: AttemptState): nat {
    match st
    case CREATED => 0
    case VALIDATED => 1
    case SIGNED => 2
    case SUBMITTED => 3
    case UNKNOWN => 4
    case SETTLED => 5
    case UNLOCKED => 5
    case BLOCKED => 5
  }

  ghost predicate Reaches(from: AttemptState, to: AttemptState)
    decreases 5 - Rank(from)
  {
    from == to || exists mid :: Edge(from, mid) && Reaches(mid, to)
  }

  lemma {:induction false} ReachesTransitive(a: AttemptState, b: AttemptState, c: AttemptState)
    requires Reaches(a, b) && Reaches(b, c)
    ensures Reaches(a, c)
    decreases 5 - Rank(a)
  {
    if a != b {
      var mid :| Edge(a, mid) && Reaches(mid, b);
      ReachesTransitive(mid, b, c);
    }
  }

  /** The attempt an operation works on. */
  function Target(id: nat, op: Op): nat {
    if op.job.Payment? then id else op.job.attemptId
  }

  function RowState(s: State, k: nat): Option<AttemptState> {
    if k in s.db.attempts then Some(s.db.attempts[k].state) else None
  }

  predicate IsPolling(s: State, r: nat, k: nat) {
    r in s.ops && s.ops[r].job == Reconcile(k) && s.ops[r].phase.Polling?
  }

  /** A reconciliation of the attempt is waiting for its status reply. */
  ghost predicate Polled(s: State, k: nat) {
    exists r :: IsPolling(s, r, k)
  }

  predicate PaysFor(s: State, k: nat) {
    k in s.ops && s.ops[k].job.Payment?
  }

  /** The store would take the receipt: no other attempt carries its transaction. */
  ghost predicate Recordable(s: State, k: nat, receipt: Receipt) {
    forall j :: j in s.db.attempts && j != k ==> s.db.attempts[j].txHash != Some(receipt.transaction)
  }

  /** The payment can still move its attempt from SUBMITTED to something other than SETTLED. */
  ghost predicate Open(s: State, k: nat) {
    && PaysFor(s, k)
    && (s.ops[k].phase.Submitted?
        || (s.ops[k].phase.Unlocking? && s.ops[k].phase.ok && Recordable(s, k, s.ops[k].phase.receipt)))
  }

  /** An open payment that a reconciliation is about to overtake, or has overtaken. */
  ghost predicate Contended(s: State, k: nat) {
    Open(s, k) && (Polled(s, k) || RowState(s, k) == Some(SETTLED))
  }

  ghost predicate Calm(s: State) {
    forall k :: !Contended(s, k)
  }

  // ---- Where an attempt stands, given where its operations stand ----

  predicate Agrees(p: Phase, row: Option<AttemptState>) {
    match p
    case Reserving => row.None?
    case Reading => row == Some(CREATED)
    case Refreshing(_) => row == Some(CREATED)
    case Deciding(_) => row == Some(CREATED)
    case Signing(_) => row == Some(VALIDATED)
    case Signed(_) => row == Some(SIGNED)
    case Submitted(_) => row in {Some(SUBMITTED), Some(SETTLED)}
    case Unlocking(_, _) => row in {Some(SUBMITTED), Some(SETTLED)}
    case Polling(_) => false
    case Finished => true
  }

  predicate Pollable(row: Option<AttemptState>) {
    row in {Some(SUBMITTED), Some(UNKNOWN), Some(SETTLED)}
  }

  ghost predicate TrackedAt(s: State, k: nat) {
    && (PaysFor(s, k) ==> Agrees(s.ops[k].phase, RowState(s, k)))
    && (Polled(s, k) ==> Pollable(RowState(s, k)))
  }

  ghost predicate Tracked(s: State) {
    Inv(s) && forall k :: TrackedAt(s, k)
  }

  predicate Follows(before: Option<AttemptState>, after: Option<AttemptState>) {
    || before == after
    || (before.None? && after == Some(CREATED))
    || (before.Some? && after.Some? && Edge(before.value, after.value))
  }

  ghost predicate FollowsAt(s: State, t: State, k: nat) {
    Follows(RowState(s, k), RowState(t, k))
  }

  // ---- What one step may touch ----

  /** From s to t only operation id moved, and of the attempts only row k may have been written. */
  ghost predicate Moves(s: State, t: State, id: nat, k: nat) {
    && id in s.ops && t.ops.Keys == s.ops.Keys && t.ops[id].job == s.ops[id].job
    && (forall j :: j in s.ops && j != id ==> t.ops[j] == s.ops[j])
    && (forall j :: j != k ==> (j in t.db.attempts <==> j in s.db.attempts))
    && (forall j :: j != k && j in s.db.attempts ==> t.db.attempts[j] == s.db.attempts[j])
  }

  lemma PutMoves(s: State, id: nat, a: Attempt, phase: Phase)
    requires id in s.ops
    ensures Moves(s, Put(s, id, a, phase), id, a.identity.attemptId)
  {
  }

  lemma DecisionMoves(s: State, id: nat, decision: PolicyDecision)
    requires PaysFor(s, id) && s.ops[id].phase.Deciding?
    ensures Moves(s, AfterDecision(s, id, decision), id, id)
  {
    var op := s.ops[id];
    match decision
    case MalformedAmount =>
    case Refused(reason) => PutMoves(s, id, Blocked(Fresh(id, op.job), reason), Finished);
    case Allowed(_) =>
      PutMoves(s, id, Fresh(id, op.job).(state := VALIDATED, decision := ALLOW), Signing(op.phase.allowance));
  }

  lemma SettleMoves(s: State, id: nat, settle: SettleReply)
    requires Enabled(s, SettleReturns(id, settle))
    ensures Moves(s, AfterSettle(s, id, settle), id, id)
  {
    var op := s.ops[id];
    var receipt := ClientReceipt(settle, op.job.req);
    PutMoves(s, id, Unknown(Fresh(id, op.job)), Finished);
    if receipt.Some? {
      PutMoves(s, id, WithEvidence(Fresh(id, op.job), SETTLED, receipt.value), Finished);
    }
  }

  lemma UnlockMoves(s: State, id: nat, paid: PaidReply)
    requires Enabled(s, Unlock(id, paid))
    ensures Moves(s, AfterUnlock(s, id, paid), id, id)
  {
    var attempt := Fresh(id, s.ops[id].job);
    match paid
    case NetworkError => PutMoves(s, id, Unknown(attempt), Finished);
    case NoReceipt(Rejected) => PutMoves(s, id, Blocked(attempt, FACILITATOR_REJECTED), Finished);
    case NoReceipt(SettleFailed) => PutMoves(s, id, Unknown(attempt), Finished);
    case NoReceipt(OtherError) => PutMoves(s, id, Blocked(attempt, RESOURCE_UNLOCK_FAILED), Finished);
    case WithReceipt(_, _) => PutMoves(s, id, Blocked(attempt, RECEIPT_MISMATCH), Finished);
  }

  lemma ReadBodyMoves(s: State, id: nat)
    requires Enabled(s, ReadBody(id))
    ensures Moves(s, Next(s, ReadBody(id)), id, id)
  {
    var settled := WithEvidence(Fresh(id, s.ops[id].job), SETTLED, s.ops[id].phase.receipt);
    PutMoves(s, id, settled.(state := UNLOCKED), Finished);
    PutMoves(s, id, settled.(decision := FAULT, reasonCode := Some(RESOURCE_UNLOCK_FAILED)), Finished);
  }

  lemma SignMoves(s: State, id: nat, outcome: SignOutcome)
    requires Enabled(s, Sign(id, outcome))
    ensures Moves(s, Next(s, Sign(id, outcome)), id, id)
  {
    var op := s.ops[id];
    match outcome
    case NoSigner => PutMoves(s, id, Blocked(Fresh(id, op.job), SIGNER_NOT_AUTHORIZED), Finished);
    case BuildFailed(reason) => PutMoves(s, id, Blocked(Fresh(id, op.job), reason), Finished);
    case Built =>
      PutMoves(s, id, Fresh(id, op.job).(state := SIGNED, decision := ALLOW), Signed(op.phase.allowance));
  }

  lemma SendMoves(s: State, a: Action)
    requires Enabled(s, a) && (a.VerifyReturns? || a.Submit?)
    ensures Moves(s, Next(s, a), a.id, a.id)
  {
    var op := s.ops[a.id];
    PutMoves(s, a.id, Blocked(Fresh(a.id, op.job), FACILITATOR_REJECTED), Finished);
    PutMoves(s, a.id, Fresh(a.id, op.job).(state := SUBMITTED), Submitted(op.phase.allowance));
  }

  lemma StatusMoves(s: State, id: nat, status: Option<Receipt>)
    requires Enabled(s, StatusReturns(id, status)) && OpOk(s.db, id, s.ops[id]) && KeysMatch(s.db)
    ensures Moves(s, Next(s, StatusReturns(id, status)), id, s.ops[id].job.attemptId)
  {
    if status.Some? && status.value.success {
      PutMoves(s, id, WithEvidence(s.ops[id].phase.snapshot, SETTLED, status.value), Finished);
    }
  }

  predicate IsOpStep(a: Action) {
    !a.StartPayment? && !a.StartReconcile? && !a.WriteAllowance?
  }

  /** A step of a running operation touches nothing but that operation and its attempt. */
  lemma OpStepMoves(s: State, a: Action)
    requires KeysMatch(s.db) && OpsOk(s) && Enabled(s, a) && IsOpStep(a)
    ensures Moves(s, Next(s, a), a.id, Target(a.id, s.ops[a.id]))
  {
    assert OpOk(s.db, a.id, s.ops[a.id]);
    match a
    case Insert(id) => PutMoves(s, id, Fresh(id, s.ops[id].job), Reading);
    case Decide(id, ledger) =>
      DecisionMoves(s, id, Preflight(s.ops[id].job.req, s.ops[id].phase.allowance, ledger));
    case Sign(id, outcome) => SignMoves(s, id, outcome);
    case VerifyReturns(_, _) => SendMoves(s, a);
    case SettleReturns(id, settle) => SettleMoves(s, id, settle);
    case Submit(_) => SendMoves(s, a);
    case Unlock(id, paid) => UnlockMoves(s, id, paid);
    case ReadBody(id) => ReadBodyMoves(s, id);
    case StatusReturns(id, status) => StatusMoves(s, id, status);
    case _ =>
  }

  /** What a step leaves of an attempt it does not work on. */
  ghost predicate Apart(s: State, t: State, k: nat) {
    && RowState(t, k) == RowState(s, k)
    && (PaysFor(s, k) <==> PaysFor(t, k))
    && (PaysFor(s, k) ==> t.ops[k] == s.ops[k])
    && (Polled(t, k) ==> Polled(s, k))
  }

  lemma ElsewhereApart(s: State, t: State, id: nat, target: nat, k: nat)
    requires Moves(s, t, id, target) && target == Target(id, s.ops[id]) && k != target
    ensures Apart(s, t, k)
  {
    forall r | IsPolling(t, r, k) ensures IsPolling(s, r, k) {
      assert r != id;
    }
  }

  lemma StartApart(s: State, a: Action, k: nat)
    requires Enabled(s, a) && !IsOpStep(a)
    requires a.StartPayment? ==> a.id != k
    requires a.StartReconcile? ==> a.attemptId != k
    ensures Apart(s, Next(s, a), k)
  {
    forall r | IsPolling(Next(s, a), r, k) ensures IsPolling(s, r, k) {
    }
  }

  // ---- A step on the attempt itself ----

  /** The payment writes its attempt and goes on, or the store refuses and it stops. */
  lemma PaymentWrites(s: State, t: State, k: nat, a: Attempt, phase: Phase)
    requires KeysMatch(s.db) && PaysFor(s, k) && TrackedAt(s, k) && a.identity == IdentityOf(k, s.ops[k].job)
    requires t.db == Put(s, k, a, phase).db && t.ops == Put(s, k, a, phase).ops
    requires PutAttempt(s.db, a).Some? ==>
      && Follows(RowState(s, k), Some(a.state))
      && Agrees(phase, Some(a.state))
      && (Polled(s, k) ==> a.state == SETTLED)
    ensures TrackedAt(t, k) && FollowsAt(s, t, k)
  {
    forall r | IsPolling(t, r, k) ensures IsPolling(s, r, k) {
    }
  }

  lemma PaymentMoves(s: State, t: State, k: nat, phase: Phase)
    requires PaysFor(s, k) && TrackedAt(s, k)
    requires t.db.attempts == s.db.attempts && t.ops == s.ops[k := s.ops[k].(phase := phase)]
    requires Agrees(phase, RowState(s, k))
    ensures TrackedAt(t, k) && FollowsAt(s, t, k)
  {
    forall r | IsPolling(t, r, k) ensures IsPolling(s, r, k) {
    }
  }

  /** What an uncontended open payment knows of its attempt. */
  lemma OpenIsSubmitted(s: State, k: nat)
    requires TrackedAt(s, k) && !Contended(s, k) && Open(s, k)
    ensures RowState(s, k) == Some(SUBMITTED) && !Polled(s, k)
  {
  }

  lemma DecisionTracked(s: State, k: nat, decision: PolicyDecision)
    requires KeysMatch(s.db) && TrackedAt(s, k) && PaysFor(s, k) && s.ops[k].phase.Deciding?
    ensures TrackedAt(AfterDecision(s, k, decision), k) && FollowsAt(s, AfterDecision(s, k, decision), k)
  {
    var op := s.ops[k];
    var t := AfterDecision(s, k, decision);
    match decision
    case MalformedAmount => PaymentMoves(s, t, k, Finished);
    case Refused(reason) => PaymentWrites(s, t, k, Blocked(Fresh(k, op.job), reason), Finished);
    case Allowed(_) =>
      PaymentWrites(s, t, k, Fresh(k, op.job).(state := VALIDATED, decision := ALLOW), Signing(op.phase.allowance));
  }

  lemma SignTracked(s: State, k: nat, outcome: SignOutcome)
    requires KeysMatch(s.db) && TrackedAt(s, k) && Enabled(s, Sign(k, outcome))
    ensures TrackedAt(Next(s, Sign(k, outcome)), k) && FollowsAt(s, Next(s, Sign(k, outcome)), k)
  {
    var op := s.ops[k];
    var t := Next(s, Sign(k, outcome));
    match outcome
    case NoSigner => PaymentWrites(s, t, k, Blocked(Fresh(k, op.job), SIGNER_NOT_AUTHORIZED), Finished);
    case BuildFailed(reason) => PaymentWrites(s, t, k, Blocked(Fresh(k, op.job), reason), Finished);
    case Built =>
      PaymentWrites(s, t, k, Fresh(k, op.job).(state := SIGNED, decision := ALLOW), Signed(op.phase.allowance));
  }

  lemma SendTracked(s: State, a: Action)
    requires KeysMatch(s.db) && Enabled(s, a) && (a.VerifyReturns? || a.Submit?) && TrackedAt(s, a.id)
    ensures TrackedAt(Next(s, a), a.id) && FollowsAt(s, Next(s, a), a.id)
  {
    var op := s.ops[a.id];
    if a.VerifyReturns? && !a.isValid {
      PaymentWrites(s, Next(s, a), a.id, Blocked(Fresh(a.id, op.job), FACILITATOR_REJECTED), Finished);
    } else {
      PaymentWrites(s, Next(s, a), a.id, Fresh(a.id, op.job).(state := SUBMITTED), Submitted(op.phase.allowance));
    }
  }

  lemma SettleTracked(s: State, k: nat, settle: SettleReply)
    requires KeysMatch(s.db) && TrackedAt(s, k) && !Contended(s, k) && Enabled(s, SettleReturns(k, settle))
    ensures TrackedAt(AfterSettle(s, k, settle), k) && FollowsAt(s, AfterSettle(s, k, settle), k)
  {
    OpenIsSubmitted(s, k);
    var op := s.ops[k];
    var receipt := ClientReceipt(settle, op.job.req);
    var t := AfterSettle(s, k, settle);
    if t == Put(s, k, Unknown(Fresh(k, op.job)), Finished) {
      PaymentWrites(s, t, k, Unknown(Fresh(k, op.job)), Finished);
    } else {
      PaymentWrites(s, t, k, WithEvidence(Fresh(k, op.job), SETTLED, receipt.value), Finished);
    }
  }

  lemma UnlockTracked(s: State, k: nat, paid: PaidReply)
    requires KeysMatch(s.db) && TrackedAt(s, k) && !Contended(s, k) && Enabled(s, Unlock(k, paid))
    ensures TrackedAt(AfterUnlock(s, k, paid), k) && FollowsAt(s, AfterUnlock(s, k, paid), k)
  {
    OpenIsSubmitted(s, k);
    var attempt := Fresh(k, s.ops[k].job);
    var t := AfterUnlock(s, k, paid);
    match paid
    case NetworkError => PaymentWrites(s, t, k, Unknown(attempt), Finished);
    case NoReceipt(Rejected) => PaymentWrites(s, t, k, Blocked(attempt, FACILITATOR_REJECTED), Finished);
    case NoReceipt(SettleFailed) => PaymentWrites(s, t, k, Unknown(attempt), Finished);
    case NoReceipt(OtherError) => PaymentWrites(s, t, k, Blocked(attempt, RESOURCE_UNLOCK_FAILED), Finished);
    case WithReceipt(receipt, ok) =>
      if t == Put(s, k, Blocked(attempt, RECEIPT_MISMATCH), Finished) {
        PaymentWrites(s, t, k, Blocked(attempt, RECEIPT_MISMATCH), Finished);
      } else {
        PaymentMoves(s, t, k, t.ops[k].phase);
      }
  }

  lemma ReadBodyTracked(s: State, k: nat)
    requires KeysMatch(s.db) && TrackedAt(s, k) && !Contended(s, k) && Enabled(s, ReadBody(k))
    ensures TrackedAt(Next(s, ReadBody(k)), k) && FollowsAt(s, Next(s, ReadBody(k)), k)
  {
    var op := s.ops[k];
    var t := Next(s, ReadBody(k));
    var settled := WithEvidence(Fresh(k, op.job), SETTLED, op.phase.receipt);
    if op.phase.ok {
      if Open(s, k) {
        OpenIsSubmitted(s, k);
      }
      PaymentWrites(s, t, k, settled.(state := UNLOCKED), Finished);
    } else {
      PaymentWrites(s, t, k, settled.(decision := FAULT, reasonCode := Some(RESOURCE_UNLOCK_FAILED)), Finished);
    }
  }

  /** An uncontended payment step keeps track of its attempt and follows the graph. */
  lemma PaymentTracked(s: State, a: Action)
    requires KeysMatch(s.db) && Enabled(s, a) && IsOpStep(a) && PaysFor(s, a.id)
    requires TrackedAt(s, a.id) && !Contended(s, a.id)
    ensures TrackedAt(Next(s, a), a.id) && FollowsAt(s, Next(s, a), a.id)
  {
    match a
    case Insert(id) => PaymentWrites(s, Next(s, a), id, Fresh(id, s.ops[id].job), Reading);
    case ReadAllowance(id) => PaymentMoves(s, Next(s, a), id, Next(s, a).ops[id].phase);
    case Refresh(id, _) => PaymentMoves(s, Next(s, a), id, Next(s, a).ops[id].phase);
    case Decide(id, ledger) =>
      DecisionTracked(s, id, Preflight(s.ops[id].job.req, s.ops[id].phase.allowance, ledger));
    case Sign(id, outcome) => SignTracked(s, id, outcome);
    case VerifyReturns(_, _) => SendTracked(s, a);
    case SettleReturns(id, settle) => SettleTracked(s, id, settle);
    case Submit(_) => SendTracked(s, a);
    case Unlock(id, paid) => UnlockTracked(s, id, paid);
    case ReadBody(id) => ReadBodyTracked(s, id);
    case Abandon(id) => PaymentMoves(s, Next(s, a), id, Finished);
    case _ =>
  }

  /** A reconciliation's step writes SETTLED over a pollable state, or nothing. */
  lemma ReconcileWrites(s: State, a: Action)
    requires KeysMatch(s.db) && Enabled(s, a) && IsOpStep(a) && OpOk(s.db, a.id, s.ops[a.id]) && !PaysFor(s, a.id)
    ensures IsPolling(s, a.id, s.ops[a.id].job.attemptId)
    ensures Moves(s, Next(s, a), a.id, s.ops[a.id].job.attemptId)
    ensures Next(s, a).ops[a.id].phase.Finished?
    ensures RowState(Next(s, a), s.ops[a.id].job.attemptId) in {RowState(s, s.ops[a.id].job.attemptId), Some(SETTLED)}
  {
    if a.StatusReturns? {
      StatusMoves(s, a.id, a.status);
    }
  }

  lemma ReconcileTracked(s: State, a: Action, k: nat)
    requires KeysMatch(s.db) && Enabled(s, a) && IsOpStep(a) && OpOk(s.db, a.id, s.ops[a.id]) && !PaysFor(s, a.id)
    requires k == s.ops[a.id].job.attemptId && TrackedAt(s, k) && !Contended(s, k)
    ensures TrackedAt(Next(s, a), k) && FollowsAt(s, Next(s, a), k)
    ensures RowState(Next(s, a), k) != RowState(s, k) ==>
      RowState(s, k) in {Some(SUBMITTED), Some(UNKNOWN)} && RowState(Next(s, a), k) == Some(SETTLED)
  {
    ReconcileWrites(s, a);
    var t := Next(s, a);
    assert Polled(s, k);
    forall r | IsPolling(t, r, k) ensures IsPolling(s, r, k) {
      assert r != a.id;
    }
    assert PaysFor(t, k) ==> t.ops[k] == s.ops[k];
  }

  lemma StartTracked(s: State, a: Action, k: nat)
    requires RowsOwned(s) && OpsOk(s) && Enabled(s, a) && TrackedAt(s, k)
    requires (a.StartPayment? && a.id == k) || (a.StartReconcile? && a.attemptId == k)
    ensures TrackedAt(Next(s, a), k) && FollowsAt(s, Next(s, a), k)
  {
    if a.StartPayment? {
      forall r ensures !IsPolling(s, r, k) {
        assert r in s.ops ==> OpOk(s.db, r, s.ops[r]);
      }
    }
    var t := Next(s, a);
    forall r | IsPolling(t, r, k) ensures r == a.id || IsPolling(s, r, k) {
    }
  }

  /** An uncontended step keeps track of every attempt it touches and moves it along an edge or not at all. */
  lemma StepAt(s: State, a: Action, k: nat)
    requires Inv(s) && Enabled(s, a) && TrackedAt(s, k) && !Contended(s, k)
    ensures TrackedAt(Next(s, a), k) && FollowsAt(s, Next(s, a), k)
  {
    if !IsOpStep(a) {
      if (a.StartPayment? && a.id == k) || (a.StartReconcile? && a.attemptId == k) {
        StartTracked(s, a, k);
      } else {
        StartApart(s, a, k);
      }
    } else {
      assert OpOk(s.db, a.id, s.ops[a.id]);
      var target := Target(a.id, s.ops[a.id]);
      if k != target {
        OpStepMoves(s, a);
        ElsewhereApart(s, Next(s, a), a.id, target, k);
      } else if PaysFor(s, a.id) {
        PaymentTracked(s, a);
      } else {
        ReconcileTracked(s, a, k);
      }
    }
  }

  // ---- Runs without contention ----

  ghost predicate CalmRun(s: State, actions: seq<Action>)
    decreases |actions|
  {
    actions == [] || (Calm(s) && Enabled(s, actions[0]) && CalmRun(Next(s, actions[0]), actions[1..]))
  }

  /** While no attempt is contended, any step moves every attempt along an edge or not at all. */
  lemma StepFollowsGraph(s: State, a: Action)
    requires Tracked(s) && Calm(s) && Enabled(s, a)
    ensures Tracked(Next(s, a)) && forall k :: FollowsAt(s, Next(s, a), k)
  {
    StepKeepsInv(s, a);
    forall k ensures TrackedAt(Next(s, a), k) && FollowsAt(s, Next(s, a), k) {
      StepAt(s, a, k);
    }
  }

  ghost predicate Descends(before: Option<AttemptState>, after: Option<AttemptState>) {
    match (before, after)
    case (None, None) => true
    case (None, Some(to)) => Reaches(CREATED, to)
    case (Some(from), Some(to)) => Reaches(from, to)
    case (Some(_), None) => false
  }

  lemma DescendsBy(a: Option<AttemptState>, b: Option<AttemptState>, c: Option<AttemptState>)
    requires Follows(a, b) && Descends(b, c)
    ensures Descends(a, c)
  {
    if b.Some? && c.Some? {
      var from := a.GetOr(CREATED);
      assert from == b.value || Edge(from, b.value);
      assert Reaches(b.value, b.value);
      ReachesTransitive(from, b.value, c.value);
    }
  }

  lemma {:induction false} RunStaysTracked(s: State, actions: seq<Action>)
    requires Tracked(s) && CalmRun(s, actions)
    ensures Runs(s, actions) && Tracked(Final(s, actions))
    decreases |actions|
  {
    if actions != [] {
      StepFollowsGraph(s, actions[0]);
      RunStaysTracked(Next(s, actions[0]), actions[1..]);
    }
  }

  lemma DescendsFromItself(row: Option<AttemptState>)
    ensures Descends(row, row)
  {
    if row.Some? {
      assert Reaches(row.value, row.value);
    }
  }

  /** Over a whole run without contention: new attempts descend from CREATED, old ones from where they stood. */
  lemma {:induction false} RunFollowsGraph(s: State, actions: seq<Action>, k: nat)
    requires Tracked(s) && CalmRun(s, actions) && Runs(s, actions)
    ensures Descends(RowState(s, k), RowState(Final(s, actions), k))
    decreases |actions|
  {
    if actions == [] {
      DescendsFromItself(RowState(s, k));
    } else {
      var m := Next(s, actions[0]);
      StepFollowsGraph(s, actions[0]);
      assert FollowsAt(s, m, k);
      RunFollowsGraph(m, actions[1..], k);
      DescendsBy(RowState(s, k), RowState(m, k), RowState(Final(m, actions[1..]), k));
    }
  }

  /** Blocked, settled and unlocked attempts stay so, and the rank never falls. */
  ghost predicate Climbs(from: AttemptState, to: AttemptState) {
    Rank(from) <= Rank(to) && (from in {BLOCKED, SETTLED, UNLOCKED} ==> to == from)
  }

  lemma {:induction false} ReachesClimbs(from: AttemptState, to: AttemptState)
    requires Reaches(from, to)
    ensures Climbs(from, to)
    decreases 5 - Rank(from)
  {
    if from != to {
      var mid :| Edge(from, mid) && Reaches(mid, to);
      ReachesClimbs(mid, to);
    }
  }

  /** From any store reached without contention on, over every run without contention. */
  lemma SettledStatesAbsorb(before: seq<Action>, s: State, after: seq<Action>, k: nat)
    requires CalmRun(INIT, before) && Runs(INIT, before) && s == Final(INIT, before)
    requires CalmRun(s, after) && Runs(s, after)
    requires k in s.db.attempts
    ensures k in Final(s, after).db.attempts
    ensures Climbs(s.db.attempts[k].state, Final(s, after).db.attempts[k].state)
  {
    RunStaysTracked(INIT, before);
    RunFollowsGraph(s, after, k);
    ReachesClimbs(s.db.attempts[k].state, Final(s, after).db.attempts[k].state);
  }

  lemma WorkingIsNotUnknown(s: State, a: Action)
    requires Enabled(s, a) && IsOpStep(a) && PaysFor(s, a.id) && TrackedAt(s, a.id)
    ensures RowState(s, a.id) != Some(UNKNOWN) && !a.StatusReturns?
  {
  }

  lemma StartsWriteNothing(s: State, a: Action, k: nat)
    requires Enabled(s, a) && RowState(Next(s, a), k) != RowState(s, k)
    ensures IsOpStep(a)
  {
  }

  /** A reconciliation settles only an attempt that is submitted or unknown, and an unknown one changes no other way. */
  lemma ReconcileSettles(s: State, a: Action, k: nat)
    requires Tracked(s) && !Contended(s, k) && Enabled(s, a)
    requires RowState(Next(s, a), k) != RowState(s, k)
    ensures a.StatusReturns? ==>
      RowState(s, k) in {Some(SUBMITTED), Some(UNKNOWN)} && RowState(Next(s, a), k) == Some(SETTLED)
    ensures RowState(s, k) == Some(UNKNOWN) ==> a.StatusReturns?
  {
    StartsWriteNothing(s, a, k);
    assert OpOk(s.db, a.id, s.ops[a.id]);
    OpStepMoves(s, a);
    assert k == Target(a.id, s.ops[a.id]);
    assert TrackedAt(s, k);
    if PaysFor(s, a.id) {
      WorkingIsNotUnknown(s, a);
    } else {
      ReconcileTracked(s, a, k);
    }
  }

  // ---- When a reconciliation is safe to start ----

  /** A check on the payment's phase alone: submitted, or reading the body of a success. */
  predicate InFlight(s: State, k: nat) {
    PaysFor(s, k) && (s.ops[k].phase.Submitted? || (s.ops[k].phase.Unlocking? && s.ops[k].phase.ok))
  }

  /** No attempt is reconciled while its payment is in flight. */
  predicate Careful(s: State, a: Action) {
    Enabled(s, a) && (a.StartReconcile? ==> !InFlight(s, a.attemptId))
  }

  ghost predicate CarefulRun(s: State, actions: seq<Action>)
    decreases |actions|
  {
    actions == [] || (Careful(s, actions[0]) && CarefulRun(Next(s, actions[0]), actions[1..]))
  }

  ghost predicate ClearAt(s: State, k: nat) {
    InFlight(s, k) ==> !Polled(s, k) && RowState(s, k) == Some(SUBMITTED)
  }

  lemma ClearIsCalm(s: State, k: nat)
    requires ClearAt(s, k)
    ensures !Contended(s, k)
  {
  }

  /** A payment in flight after its step was being sent, or already sent, before it. */
  lemma InFlightWasSent(s: State, a: Action)
    requires Enabled(s, a) && IsOpStep(a) && PaysFor(s, a.id) && InFlight(Next(s, a), a.id)
    ensures (s.ops[a.id].phase.Signed? && (a.VerifyReturns? || a.Submit?))
      || (s.ops[a.id].phase.Submitted? && a.Unlock?)
  {
  }

  lemma SentIsSubmitted(s: State, a: Action)
    requires Enabled(s, a) && (a.VerifyReturns? || a.Submit?) && a.id in s.db.attempts && KeysMatch(s.db)
    requires InFlight(Next(s, a), a.id)
    ensures RowState(Next(s, a), a.id) == Some(SUBMITTED)
  {
  }

  lemma UnlockingKeepsRow(s: State, a: Action)
    requires Enabled(s, a) && a.Unlock? && InFlight(Next(s, a), a.id)
    ensures RowState(Next(s, a), a.id) == RowState(s, a.id)
  {
  }

  lemma PaymentPollsNothing(s: State, t: State, k: nat)
    requires PaysFor(s, k) && Moves(s, t, k, k)
    ensures Polled(t, k) ==> Polled(s, k)
  {
    forall r | IsPolling(t, r, k) ensures IsPolling(s, r, k) {
      assert r != k;
    }
  }

  /** A step of the attempt's own payment: nobody polls an attempt whose payment is being sent. */
  lemma PaymentStaysClear(s: State, a: Action)
    requires KeysMatch(s.db) && OpsOk(s) && Enabled(s, a) && IsOpStep(a) && PaysFor(s, a.id)
    requires TrackedAt(s, a.id) && (s.ops[a.id].phase.Submitted? ==> ClearAt(s, a.id))
    ensures ClearAt(Next(s, a), a.id)
  {
    OpStepMoves(s, a);
    PaymentPollsNothing(s, Next(s, a), a.id);
    if InFlight(Next(s, a), a.id) {
      InFlightWasSent(s, a);
      if a.Unlock? {
        UnlockingKeepsRow(s, a);
      } else {
        SentIsSubmitted(s, a);
      }
    }
  }

  lemma StepStaysClear(s: State, a: Action, k: nat)
    requires Inv(s) && TrackedAt(s, k) && ClearAt(s, k) && Careful(s, a)
    ensures ClearAt(Next(s, a), k)
  {
    if !IsOpStep(a) {
      if a.StartReconcile? && a.attemptId == k {
        assert !InFlight(s, k);
      } else if !(a.StartPayment? && a.id == k) {
        StartApart(s, a, k);
      }
    } else {
      assert OpOk(s.db, a.id, s.ops[a.id]);
      var target := Target(a.id, s.ops[a.id]);
      OpStepMoves(s, a);
      if k != target {
        ElsewhereApart(s, Next(s, a), a.id, target, k);
      } else if PaysFor(s, a.id) {
        PaymentStaysClear(s, a);
      } else {
        ReconcileWrites(s, a);
        assert Polled(s, k) && !InFlight(s, k);
      }
    }
  }

  /** Careful callers never see contention, so every run of theirs follows the graph. */
  lemma {:induction false} CarefulRunsAreCalm(s: State, actions: seq<Action>)
    requires Tracked(s) && (forall k :: ClearAt(s, k)) && CarefulRun(s, actions)
    ensures CalmRun(s, actions)
    decreases |actions|
  {
    forall k ensures !Contended(s, k) {
      ClearIsCalm(s, k);
    }
    if actions != [] {
      var m := Next(s, actions[0]);
      StepFollowsGraph(s, actions[0]);
      forall k ensures ClearAt(m, k) {
        StepStaysClear(s, actions[0], k);
      }
      CarefulRunsAreCalm(m, actions[1..]);
    }
  }

  lemma OpenUntouched(s: State, t: State, k: nat)
    requires t.db == s.db && (PaysFor(s, k) <==> PaysFor(t, k)) && (PaysFor(s, k) ==> t.ops[k] == s.ops[k])
    ensures Open(t, k) <==> Open(s, k)
  {
  }

  /** The guard is exact: a reconciliation contends its attempt precisely when it starts while the payment is open. */
  lemma ReconcileContendsIffOpen(s: State, r: nat, k: nat)
    requires TrackedAt(s, k) && !Contended(s, k) && Enabled(s, StartReconcile(r, k))
    ensures Contended(Next(s, StartReconcile(r, k)), k) <==> Open(s, k)
  {
    var t := Next(s, StartReconcile(r, k));
    OpenUntouched(s, t, k);
    if Open(s, k) {
      OpenIsSubmitted(s, k);
      assert IsPolling(t, r, k);
    }
  }
}
