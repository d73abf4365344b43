/**
  What each reply to a running payment writes: the whole row, under conditions on the reply, the request and the
  stored allowance.
 */
module SdkOutcomes {
  import opened Wrappers
  import opened Hashing
  import opened X402
  import opened EvidenceStore
  import opened SdkProtocol
  import Amounts
  import opened Decimal

  // ---- What a payment is about ----

  /** The stored treasury that must have paid. */
  function Treasury(s: State, id: nat): string
    requires id in s.ops && s.ops[id].job.Payment? && s.ops[id].job.allowanceId in s.db.allowances
  {
    s.db.allowances[s.ops[id].job.allowanceId].identity.treasuryContract
  }

  /** A payment that has reserved its attempt. */
  predicate Placed(s: State, id: nat) {
    && id in s.ops && s.ops[id].job.Payment?
    && s.ops[id].job.allowanceId in s.db.allowances
    && id in s.db.attempts
    && var job := s.ops[id].job;
       var reference :=
         if job.req.challengeId.Some? then Challenge(job.req.challengeId.value) else Hashed(Sha256(job.req));
       s.db.attempts[id].identity ==
         AttemptIdentity(id, job.allowanceId, job.url, reference, Sha256(job.req), job.req.amount, job.req.payTo,
                         job.req.asset, job.createdAt)
  }

  lemma InsertedIsPlaced(s: State, id: nat)
    requires OpsOk(s) && RowsOwned(s) && id in s.ops && s.ops[id].job.Payment? && Inserted(s.ops[id].phase)
    ensures Placed(s, id)
    ensures CarriesAllowance(s.ops[id].phase) ==>
      s.ops[id].phase.allowance.identity == s.db.allowances[s.ops[id].job.allowanceId].identity
  {
    assert OpOk(s.db, id, s.ops[id]);
  }

  /** A row without a receipt. */
  function Standing(s: State, id: nat, state: AttemptState, decision: Decision, reason: Option<Reason>): Attempt
    requires id in s.db.attempts
  {
    Attempt(s.db.attempts[id].identity, state, decision, reason, None, None, None)
  }

  /** A row with a receipt and the two columns derived from it. */
  function Proven(s: State, id: nat, state: AttemptState, decision: Decision, reason: Option<Reason>, receipt: Receipt)
    : Attempt
    requires id in s.db.attempts
  {
    Attempt(s.db.attempts[id].identity, state, decision, reason, Some(receipt.transaction), Some(Sha256(receipt)),
            Some(receipt))
  }

  /** From s to t the attempt got this row and operation id went to this phase; other rows and operations stayed. */
  predicate Wrote(s: State, t: State, id: nat, attemptId: nat, row: Attempt, phase: Phase)
    requires id in s.ops
  {
    && t.db == s.db.(attempts := s.db.attempts[attemptId := row])
    && t.ops == s.ops[id := s.ops[id].(phase := phase)]
  }

  /** Operation id went to this phase and nothing was written. */
  predicate Left(s: State, t: State, id: nat, phase: Phase)
    requires id in s.ops
  {
    t.db == s.db && t.ops == s.ops[id := s.ops[id].(phase := phase)]
  }

  /** No other attempt carries the transaction. */
  predicate Unrecorded(s: State, id: nat, transaction: string) {
    forall k | k in s.db.attempts && k != id :: s.db.attempts[k].txHash != Some(transaction)
  }

  /** A write of a placed attempt goes through unless another one carries its transaction. */
  lemma PutOutcome(s: State, id: nat, attemptId: nat, a: Attempt, phase: Phase)
    requires id in s.ops && attemptId in s.db.attempts && a.identity == s.db.attempts[attemptId].identity
    requires a.identity.attemptId == attemptId
    ensures
      if a.txHash.None? || Unrecorded(s, attemptId, a.txHash.value)
      then PutAttempt(s.db, a).Some? && Wrote(s, Put(s, id, a, phase), id, attemptId, a, phase)
      else PutAttempt(s.db, a).None? && Left(s, Put(s, id, a, phase), id, Finished)
  {
  }

  // ---- Reserving ----

  /** The row a payment reserves. */
  function Reserved(id: nat, job: Job): Attempt
    requires job.Payment?
  {
    var reference :=
      if job.req.challengeId.Some? then Challenge(job.req.challengeId.value) else Hashed(Sha256(job.req));
    Attempt(AttemptIdentity(id, job.allowanceId, job.url, reference, Sha256(job.req), job.req.amount, job.req.payTo,
                            job.req.asset, job.createdAt),
            CREATED, PENDING, None, None, None, None)
  }

  /** No attempt of the allowance is for the same request. */
  predicate Unattempted(s: State, a: Attempt) {
    forall k | k in s.db.attempts ::
      !(s.db.attempts[k].identity.allowanceId == a.identity.allowanceId
        && s.db.attempts[k].identity.reference == a.identity.reference)
  }

  /** A second payment of a request is refused before anything is written, whatever became of the first. */
  lemma StartOutcome(s: State, id: nat, job: Job)
    requires job.Payment? && id !in s.ops
    ensures
      var a := StartPayment(id, job.kind, job.allowanceId, job.url, job.req, job.createdAt);
      && Enabled(s, a)
      && Next(s, a) ==
           s.(ops := s.ops[id := Op(job, if Unattempted(s, Reserved(id, job)) then Reserving else Finished)])
  {
    assert Unattempted(s, Reserved(id, job)) <==> !ReferenceTaken(s.db.attempts, Fresh(id, job));
  }

  /** The row is inserted exactly for a stored allowance and a request still without an attempt. */
  lemma InsertOutcome(s: State, id: nat)
    requires Inv(s) && Enabled(s, Insert(id))
    ensures
      var row := Reserved(id, s.ops[id].job);
      if s.ops[id].job.allowanceId in s.db.allowances && Unattempted(s, row)
      then Wrote(s, Next(s, Insert(id)), id, id, row, Reading)
      else Left(s, Next(s, Insert(id)), id, Finished)
  {
    assert Unattempted(s, Reserved(id, s.ops[id].job)) <==> !ReferenceTaken(s.db.attempts, Fresh(id, s.ops[id].job));
    assert id !in s.db.attempts;
  }

  /** A revoked allowance is decided on as stored; any other is refreshed first; without one the payment stops. */
  lemma ReadOutcome(s: State, id: nat)
    requires Enabled(s, ReadAllowance(id))
    ensures
      var key := s.ops[id].job.allowanceId;
      Left(s, Next(s, ReadAllowance(id)), id,
           if key !in s.db.allowances then Finished
           else if s.db.allowances[key].status == REVOKED then Deciding(s.db.allowances[key])
           else Refreshing(s.db.allowances[key]))
  {
  }

  // ---- Deciding ----

  /** The eight refusals of preflight, first failure first, and the amount that does not parse. */
  lemma PreflightReasons(req: Requirements, allowance: Allowance, ledger: int)
    ensures
      var d := Preflight(req, allowance, ledger);
      var terms := allowance.identity;
      var inTerms := req.network == terms.network && req.asset == terms.assetContract
                     && req.payTo in terms.allowedRecipients;
      var expired := terms.validUntilLedger < ledger || allowance.status == EXPIRED;
      var numeric := req.amount != "" && AllDigits(req.amount) && Parse(req.amount) > 0;
      && (d == Refused(NETWORK_MISMATCH) <==> req.network != terms.network)
      && (d == Refused(ASSET_NOT_ALLOWED) <==> req.network == terms.network && req.asset != terms.assetContract)
      && (d == Refused(RECIPIENT_NOT_ALLOWED) <==>
            req.network == terms.network && req.asset == terms.assetContract && req.payTo !in terms.allowedRecipients)
      && (d == Refused(ALLOWANCE_REVOKED) <==> inTerms && allowance.status == REVOKED)
      && (d == Refused(ALLOWANCE_EXPIRED) <==> inTerms && allowance.status != REVOKED && expired)
      && (d == Refused(ALLOWANCE_NOT_ACTIVE) <==> inTerms && !expired && allowance.status in {DRAFT, EXHAUSTED, ERROR})
      && (d.MalformedAmount? <==> inTerms && !expired && allowance.status == ACTIVE && !numeric)
      && (d == Refused(BUDGET_EXCEEDED) <==>
            inTerms && !expired && allowance.status == ACTIVE && numeric
            && allowance.spentAtomic + Parse(req.amount) > terms.maxSpendAtomic)
  {
    Amounts.AtomicAmounts(req.amount);
  }

  /**
    What the chain says replaces the stored spending and decides the status; without an answer the spending stays and
    the status is an error. The same record is stored and decided on.
   */
  lemma RefreshOutcome(s: State, id: nat, chain: ChainReply)
    requires Inv(s) && Enabled(s, Refresh(id, chain))
    ensures
      var t := Next(s, Refresh(id, chain));
      var before := s.ops[id].phase.allowance;
      var key := s.ops[id].job.allowanceId;
      && t.ops[id].phase.Deciding? && key in t.db.allowances && t.db.attempts == s.db.attempts
      && var after := t.ops[id].phase.allowance;
         && t.db.allowances == s.db.allowances[key := after]
         && t.ops == s.ops[id := s.ops[id].(phase := Deciding(after))]
         && after.identity == s.db.allowances[key].identity
         && after.title == before.title && after.revokeTxHash == before.revokeTxHash
         && (chain.ChainFailed? ==> after.spentAtomic == before.spentAtomic && after.status == ERROR)
         && (chain.Chain? ==>
               && (chain.spent.Some? ==> after.spentAtomic == chain.spent.value)
               && (chain.spent.None? ==> after.spentAtomic == before.spentAtomic)
               && (after.status == EXPIRED <==> after.identity.validUntilLedger < chain.ledger)
               && (after.status == EXHAUSTED <==>
                     && chain.ledger <= after.identity.validUntilLedger
                     && after.spentAtomic >= after.identity.maxSpendAtomic)
               && (after.status == ACTIVE <==>
                     && chain.ledger <= after.identity.validUntilLedger
                     && after.spentAtomic < after.identity.maxSpendAtomic))
  {
    InsertedIsPlaced(s, id);
  }

  /** The decision is made on the refreshed record, at the ledger read for it, and is written down. */
  lemma DecisionOutcome(s: State, id: nat, ledger: int)
    requires Inv(s) && Enabled(s, Decide(id, ledger))
    ensures Placed(s, id)
    ensures
      var t := Next(s, Decide(id, ledger));
      var allowance := s.ops[id].phase.allowance;
      match Preflight(s.ops[id].job.req, allowance, ledger)
      case MalformedAmount => Left(s, t, id, Finished)
      case Refused(reason) => Wrote(s, t, id, id, Standing(s, id, BLOCKED, BLOCK, Some(reason)), Finished)
      case Allowed(_) => Wrote(s, t, id, id, Standing(s, id, VALIDATED, ALLOW, None), Signing(allowance))
  {
    InsertedIsPlaced(s, id);
    match Preflight(s.ops[id].job.req, s.ops[id].phase.allowance, ledger)
    case MalformedAmount =>
    case Refused(reason) => PutOutcome(s, id, id, Blocked(Fresh(id, s.ops[id].job), reason), Finished);
    case Allowed(_) =>
      PutOutcome(s, id, id, Fresh(id, s.ops[id].job).(state := VALIDATED, decision := ALLOW),
                 Signing(s.ops[id].phase.allowance));
  }

  /** Without a signer, or when building fails, the attempt is blocked; a signed payload is logged. */
  lemma SigningOutcome(s: State, id: nat, outcome: SignOutcome)
    requires Inv(s) && Enabled(s, Sign(id, outcome))
    ensures Placed(s, id)
    ensures
      var t := Next(s, Sign(id, outcome));
      match outcome
      case NoSigner =>
        && Wrote(s, t, id, id, Standing(s, id, BLOCKED, BLOCK, Some(SIGNER_NOT_AUTHORIZED)), Finished)
        && t.built == s.built
      case BuildFailed(reason) =>
        Wrote(s, t, id, id, Standing(s, id, BLOCKED, BLOCK, Some(reason)), Finished) && t.built == s.built
      case Built =>
        && Wrote(s, t, id, id, Standing(s, id, SIGNED, ALLOW, None), Signed(s.ops[id].phase.allowance))
        && t.built == s.built + [id]
  {
    InsertedIsPlaced(s, id);
    var snapshot := Fresh(id, s.ops[id].job);
    match outcome
    case NoSigner => PutOutcome(s, id, id, Blocked(snapshot, SIGNER_NOT_AUTHORIZED), Finished);
    case BuildFailed(reason) => PutOutcome(s, id, id, Blocked(snapshot, reason), Finished);
    case Built =>
      PutOutcome(s, id, id, snapshot.(state := SIGNED, decision := ALLOW), Signed(s.ops[id].phase.allowance));
  }

  // ---- Sending and settling ----

  /** A refusal by the facilitator blocks the attempt; otherwise pay goes on and the payload counts as sent. */
  lemma VerdictOutcome(s: State, id: nat, isValid: bool)
    requires Inv(s) && Enabled(s, VerifyReturns(id, isValid))
    ensures Placed(s, id)
    ensures
      var t := Next(s, VerifyReturns(id, isValid));
      if isValid then
        && Wrote(s, t, id, id, Standing(s, id, SUBMITTED, PENDING, None), Submitted(s.ops[id].phase.allowance))
        && t.sent == s.sent + [id]
      else
        && Wrote(s, t, id, id, Standing(s, id, BLOCKED, BLOCK, Some(FACILITATOR_REJECTED)), Finished)
        && t.sent == s.sent
  {
    InsertedIsPlaced(s, id);
    var snapshot := Fresh(id, s.ops[id].job);
    PutOutcome(s, id, id, snapshot.(state := SUBMITTED), Submitted(s.ops[id].phase.allowance));
    PutOutcome(s, id, id, Blocked(snapshot, FACILITATOR_REJECTED), Finished);
  }

  lemma SubmitOutcome(s: State, id: nat)
    requires Inv(s) && Enabled(s, Submit(id))
    ensures Placed(s, id)
    ensures
      var t := Next(s, Submit(id));
      && Wrote(s, t, id, id, Standing(s, id, SUBMITTED, PENDING, None), Submitted(s.ops[id].phase.allowance))
      && t.sent == s.sent + [id]
  {
    InsertedIsPlaced(s, id);
    PutOutcome(s, id, id, Fresh(id, s.ops[id].job).(state := SUBMITTED), Submitted(s.ops[id].phase.allowance));
  }

  /** The facilitator settled for this payer, in a transaction with a proper hash. */
  predicate SettledFor(settle: SettleReply, payer: string) {
    settle.SettleReply? && settle.success && settle.payer == payer && payer != "" && IsHex64(settle.transaction)
  }

  function SettledReceipt(settle: SettleReply, req: Requirements): Receipt
    requires settle.SettleReply?
  {
    Receipt(true, settle.transaction, req.network, settle.payer, req.amount, req.asset, req.payTo,
            req.challengeId.GetOr(""))
  }

  lemma ReceiptOutcome(settle: SettleReply, req: Requirements, payer: string)
    ensures
      var receipt := ClientReceipt(settle, req);
      SettledFor(settle, payer) <==> receipt.Some? && ReceiptMatches(receipt.value, req, payer)
    ensures SettledFor(settle, payer) ==> ClientReceipt(settle, req) == Some(SettledReceipt(settle, req))
  {
  }

  /**
    Pay records the settlement with its evidence exactly when the facilitator settled for the stored treasury, in a
    transaction that no other attempt carries. Whatever else comes back, or nothing, the attempt is unknown.
   */
  lemma SettleOutcome(s: State, id: nat, settle: SettleReply)
    requires Inv(s) && Enabled(s, SettleReturns(id, settle))
    ensures Placed(s, id)
    ensures
      var t := Next(s, SettleReturns(id, settle));
      if SettledFor(settle, Treasury(s, id)) && Unrecorded(s, id, settle.transaction)
      then Wrote(s, t, id, id,
                 Proven(s, id, SETTLED, ALLOW, None, SettledReceipt(settle, s.ops[id].job.req)), Finished)
      else Wrote(s, t, id, id, Standing(s, id, UNKNOWN, PENDING, Some(SETTLEMENT_UNKNOWN)), Finished)
  {
    InsertedIsPlaced(s, id);
    var snapshot := Fresh(id, s.ops[id].job);
    ReceiptOutcome(settle, s.ops[id].job.req, Treasury(s, id));
    PutOutcome(s, id, id, Unknown(snapshot), Finished);
    if SettledFor(settle, Treasury(s, id)) {
      PutOutcome(s, id, id, WithEvidence(snapshot, SETTLED, SettledReceipt(settle, s.ops[id].job.req)), Finished);
    }
  }

  // ---- The paid request ----

  /** The receipt is for the payment that was asked for, paid by the stored treasury. */
  predicate IsFor(receipt: Receipt, req: Requirements, treasury: string) {
    && receipt.network == req.network
    && receipt.asset == req.asset
    && receipt.amount == req.amount
    && receipt.payTo == req.payTo
    && receipt.payer == treasury
    && (req.challengeId.Some? ==> receipt.challengeId == req.challengeId.value)
    && (req.challengeId.None? ==> receipt.challengeId == "")
    && IsHex64(receipt.transaction)
  }

  /** A receipt header the SDK can decode. */
  predicate Legible(receipt: Receipt) {
    receipt.success && receipt.transaction != "" && receipt.payer != ""
  }

  /**
    What a reply to the paid request leaves behind. Losing the reply, or being told that settlement failed, leaves the
    attempt unknown; the three refusals block it for three different reasons; a receipt for this payment goes on to
    the body without a write; a receipt that cannot be decoded ends the operation without one.
   */
  predicate PaidReplyLeaves(s: State, t: State, id: nat, paid: PaidReply)
    requires Placed(s, id)
  {
    if paid.NetworkError? || paid == NoReceipt(SettleFailed) then
      Wrote(s, t, id, id, Standing(s, id, UNKNOWN, PENDING, Some(SETTLEMENT_UNKNOWN)), Finished)
    else if paid == NoReceipt(Rejected) then
      Wrote(s, t, id, id, Standing(s, id, BLOCKED, BLOCK, Some(FACILITATOR_REJECTED)), Finished)
    else if !paid.WithReceipt? then
      Wrote(s, t, id, id, Standing(s, id, BLOCKED, BLOCK, Some(RESOURCE_UNLOCK_FAILED)), Finished)
    else if !Legible(paid.receipt) then Left(s, t, id, Finished)
    else if !IsFor(paid.receipt, s.ops[id].job.req, Treasury(s, id)) then
      Wrote(s, t, id, id, Standing(s, id, BLOCKED, BLOCK, Some(RECEIPT_MISMATCH)), Finished)
    else Left(s, t, id, Unlocking(paid.receipt, paid.ok))
  }

  lemma PaidReplyOutcome(s: State, id: nat, paid: PaidReply)
    requires Inv(s) && Enabled(s, Unlock(id, paid))
    ensures Placed(s, id) && PaidReplyLeaves(s, Next(s, Unlock(id, paid)), id, paid)
  {
    InsertedIsPlaced(s, id);
    if paid.WithReceipt? {
      ReceiptReadOutcome(s, id, paid, Fresh(id, s.ops[id].job));
    } else {
      NoReceiptOutcome(s, id, paid, Fresh(id, s.ops[id].job));
    }
  }

  lemma NoReceiptOutcome(s: State, id: nat, paid: PaidReply, snapshot: Attempt)
    requires Enabled(s, Unlock(id, paid)) && !paid.WithReceipt? && Placed(s, id)
    requires snapshot == Fresh(id, s.ops[id].job)
    ensures PaidReplyLeaves(s, AfterUnlock(s, id, paid), id, paid)
  {
    if paid == NoReceipt(Rejected) {
      PutOutcome(s, id, id, Blocked(snapshot, FACILITATOR_REJECTED), Finished);
    } else if paid == NoReceipt(OtherError) {
      PutOutcome(s, id, id, Blocked(snapshot, RESOURCE_UNLOCK_FAILED), Finished);
    } else {
      PutOutcome(s, id, id, Unknown(snapshot), Finished);
    }
  }

  lemma ReceiptReadOutcome(s: State, id: nat, paid: PaidReply, snapshot: Attempt)
    requires Enabled(s, Unlock(id, paid)) && paid.WithReceipt? && Placed(s, id) && snapshot == Fresh(id, s.ops[id].job)
    requires s.ops[id].phase.allowance.identity.treasuryContract == Treasury(s, id)
    ensures PaidReplyLeaves(s, AfterUnlock(s, id, paid), id, paid)
  {
    PutOutcome(s, id, id, Blocked(snapshot, RECEIPT_MISMATCH), Finished);
  }

  predicate BlockedFor(row: Attempt, reason: Reason) {
    row.state == BLOCKED && row.decision == BLOCK && row.reasonCode == Some(reason)
  }

  /** So the row tells what came back, in both directions. */
  lemma PaidReplyReasons(s: State, id: nat, paid: PaidReply)
    requires Inv(s) && Enabled(s, Unlock(id, paid)) && id in s.db.attempts
    requires s.db.attempts[id].state in {SUBMITTED, SETTLED}
    ensures id in Next(s, Unlock(id, paid)).db.attempts && s.ops[id].job.allowanceId in s.db.allowances
    ensures RowTells(s, Next(s, Unlock(id, paid)).db.attempts[id], id, paid)
  {
    PaidReplyOutcome(s, id, paid);
    LeavesTells(s, Next(s, Unlock(id, paid)), id, paid);
  }

  predicate RowTells(s: State, row: Attempt, id: nat, paid: PaidReply)
    requires id in s.ops && s.ops[id].job.Payment? && s.ops[id].job.allowanceId in s.db.allowances
  {
    && (row.state == UNKNOWN <==> paid.NetworkError? || paid == NoReceipt(SettleFailed))
    && (row.state == UNKNOWN ==> row.decision == PENDING && row.reasonCode == Some(SETTLEMENT_UNKNOWN))
    && (BlockedFor(row, FACILITATOR_REJECTED) <==> paid == NoReceipt(Rejected))
    && (BlockedFor(row, RESOURCE_UNLOCK_FAILED) <==> paid == NoReceipt(OtherError))
    && (BlockedFor(row, RECEIPT_MISMATCH) <==>
          paid.WithReceipt? && Legible(paid.receipt) && !IsFor(paid.receipt, s.ops[id].job.req, Treasury(s, id)))
  }

  lemma LeavesTells(s: State, t: State, id: nat, paid: PaidReply)
    requires Placed(s, id) && s.db.attempts[id].state in {SUBMITTED, SETTLED} && PaidReplyLeaves(s, t, id, paid)
    ensures id in t.db.attempts && RowTells(s, t.db.attempts[id], id, paid)
  {
    assert paid.NoReceipt? ==> paid.error.Rejected? || paid.error.SettleFailed? || paid.error.OtherError?;
  }

  /** The body of a success unlocks the resource, that of a failure leaves a settled fault; both carry the evidence. */
  lemma BodyOutcome(s: State, id: nat)
    requires Inv(s) && Enabled(s, ReadBody(id))
    ensures Placed(s, id)
    ensures
      var t := Next(s, ReadBody(id));
      var receipt := s.ops[id].phase.receipt;
      if !Unrecorded(s, id, receipt.transaction) then Left(s, t, id, Finished)
      else if s.ops[id].phase.ok then Wrote(s, t, id, id, Proven(s, id, UNLOCKED, ALLOW, None, receipt), Finished)
      else Wrote(s, t, id, id, Proven(s, id, SETTLED, FAULT, Some(RESOURCE_UNLOCK_FAILED), receipt), Finished)
  {
    InsertedIsPlaced(s, id);
    var settled := WithEvidence(Fresh(id, s.ops[id].job), SETTLED, s.ops[id].phase.receipt);
    PutOutcome(s, id, id, settled.(state := UNLOCKED), Finished);
    PutOutcome(s, id, id, settled.(decision := FAULT, reasonCode := Some(RESOURCE_UNLOCK_FAILED)), Finished);
  }

  // ---- Reconciliation ----

  /** A reconciliation looks at the merchant exactly for attempts that may have been settled unnoticed. */
  lemma ReconcileStartOutcome(s: State, r: nat, id: nat)
    requires Enabled(s, StartReconcile(r, id))
    ensures
      var t := Next(s, StartReconcile(r, id));
      && t.db == s.db && r in t.ops && t.ops[r].job == Reconcile(id)
      && (t.ops[r].phase.Polling? <==>
            id in s.db.attempts && (s.db.attempts[id].state == UNKNOWN || s.db.attempts[id].state == SUBMITTED))
      && (t.ops[r].phase.Polling? ==> t.ops[r].phase.snapshot == s.db.attempts[id])
      && (!t.ops[r].phase.Polling? ==> t.ops[r].phase.Finished?)
  {
  }

  /**
    A stored success settles the attempt with it unless another attempt carries its transaction; any other answer
    writes nothing.
   */
  lemma StatusOutcome(s: State, r: nat, status: Option<Receipt>)
    requires Inv(s) && Enabled(s, StatusReturns(r, status))
    ensures s.ops[r].job.attemptId in s.db.attempts
    ensures
      var t := Next(s, StatusReturns(r, status));
      var id := s.ops[r].job.attemptId;
      if status.Some? && status.value.success && Unrecorded(s, id, status.value.transaction)
      then Wrote(s, t, r, id, Proven(s, id, SETTLED, ALLOW, None, status.value), Finished)
      else Left(s, t, r, Finished)
  {
    assert OpOk(s.db, r, s.ops[r]);
    if status.Some? {
      PutOutcome(s, r, s.ops[r].job.attemptId, WithEvidence(s.ops[r].phase.snapshot, SETTLED, status.value), Finished);
    }
  }

  // ---- A payment that passes preflight ----

  lemma RunsOne(s: State, a: Action, rest: seq<Action>)
    requires Enabled(s, a) && Runs(Next(s, a), rest)
    ensures Runs(s, [a] + rest) && Final(s, [a] + rest) == Final(Next(s, a), rest)
  {
    assert ([a] + rest)[1..] == rest;
  }

  lemma RunsTwo(s: State, a: Action, b: Action)
    requires Enabled(s, a) && Enabled(Next(s, a), b)
    ensures Runs(s, [a, b]) && Final(s, [a, b]) == Next(Next(s, a), b)
  {
    RunsOne(Next(s, a), b, []);
    RunsOne(s, a, [b]);
    assert [a] + [b] == [a, b];
  }

  lemma {:induction false} RunsOn(s: State, first: seq<Action>, rest: seq<Action>)
    requires Runs(s, first) && Runs(Final(s, first), rest)
    ensures Runs(s, first + rest) && Final(s, first + rest) == Final(Final(s, first), rest)
    decreases |first|
  {
    if first == [] {
      assert first + rest == rest;
    } else {
      RunsOn(Next(s, first[0]), first[1..], rest);
      RunsOne(s, first[0], first[1..] + rest);
      assert [first[0]] + (first[1..] + rest) == first + rest;
    }
  }

  /** The payment has gone from s to t alone, with this row and phase. */
  ghost predicate Underway(s: State, t: State, id: nat, job: Job, row: Attempt, phase: Phase) {
    && job.Payment?
    && t.ops == s.ops[id := Op(job, phase)] && t.db.attempts == s.db.attempts[id := row]
    && row.identity == Reserved(id, job).identity
    && job.allowanceId in s.db.allowances && job.allowanceId in t.db.allowances
    && t.db.allowances[job.allowanceId].identity == s.db.allowances[job.allowanceId].identity
  }

  /** The request is within the allowance as the chain reports it, at the ledger read for the decision. */
  predicate Payable(req: Requirements, record: Allowance, chain: ChainReply, ledger: int) {
    && chain.Chain? && chain.ledger <= record.identity.validUntilLedger && ledger <= record.identity.validUntilLedger
    && req.network == record.identity.network && req.asset == record.identity.assetContract
    && req.payTo in record.identity.allowedRecipients
    && var spent := if chain.spent.Some? then chain.spent.value else record.spentAtomic;
       spent < record.identity.maxSpendAtomic
       && req.amount != "" && AllDigits(req.amount) && Parse(req.amount) > 0
       && spent + Parse(req.amount) <= record.identity.maxSpendAtomic
  }

  lemma WroteOn(s: State, t: State, u: State, id: nat, job: Job, row: Attempt, phase: Phase)
    requires id in t.ops && id in t.db.attempts && Underway(s, t, id, job, t.db.attempts[id], t.ops[id].phase)
    requires Wrote(t, u, id, id, row, phase) && row.identity == t.db.attempts[id].identity
    ensures Underway(s, u, id, job, row, phase)
  {
  }

  lemma MovedOn(s: State, t: State, u: State, id: nat, job: Job, row: Attempt, phase: Phase)
    requires id in t.ops && Underway(s, t, id, job, row, t.ops[id].phase)
    requires u.ops == t.ops[id := t.ops[id].(phase := phase)] && u.db.attempts == t.db.attempts
    requires job.allowanceId in u.db.allowances
    requires u.db.allowances[job.allowanceId].identity == t.db.allowances[job.allowanceId].identity
    ensures Underway(s, u, id, job, row, phase)
  {
  }

  lemma ReservingIsInserted(s: State, t: State, id: nat, job: Job)
    requires Inv(t) && job.Payment? && t == s.(ops := s.ops[id := Op(job, Reserving)])
    requires job.allowanceId in s.db.allowances && Unattempted(s, Reserved(id, job))
    ensures
      && Enabled(t, Insert(id))
      && var u := Next(t, Insert(id));
         Inv(u) && Underway(s, u, id, job, Reserved(id, job), Reading) && u.db.allowances == s.db.allowances
  {
    InsertOutcome(t, id);
    StepKeepsInv(t, Insert(id));
    InsertedIsUnderway(s, t, Next(t, Insert(id)), id, job);
  }

  lemma InsertedIsUnderway(s: State, t: State, u: State, id: nat, job: Job)
    requires job.Payment? && t == s.(ops := s.ops[id := Op(job, Reserving)]) && job.allowanceId in s.db.allowances
    requires Wrote(t, u, id, id, Reserved(id, job), Reading)
    ensures Underway(s, u, id, job, Reserved(id, job), Reading) && u.db.allowances == s.db.allowances
  {
  }

  lemma PaymentIsReserved(s: State, id: nat, job: Job)
    requires Inv(s) && id !in s.ops && job.Payment? && job.allowanceId in s.db.allowances
    requires Unattempted(s, Reserved(id, job))
    ensures
      var steps := [StartPayment(id, job.kind, job.allowanceId, job.url, job.req, job.createdAt), Insert(id)];
      && Runs(s, steps) && Inv(Final(s, steps)) && Underway(s, Final(s, steps), id, job, Reserved(id, job), Reading)
      && Final(s, steps).db.allowances == s.db.allowances
  {
    var a := StartPayment(id, job.kind, job.allowanceId, job.url, job.req, job.createdAt);
    StartOutcome(s, id, job);
    StepKeepsInv(s, a);
    ReservingIsInserted(s, Next(s, a), id, job);
    RunsTwo(s, a, Insert(id));
  }

  lemma AllowanceIsRead(s: State, t: State, id: nat, job: Job)
    requires Inv(t) && job.Payment? && Underway(s, t, id, job, Reserved(id, job), Reading)
    requires t.db.allowances == s.db.allowances && s.db.allowances[job.allowanceId].status != REVOKED
    ensures
      && Enabled(t, ReadAllowance(id))
      && Inv(Next(t, ReadAllowance(id)))
      && Underway(s, Next(t, ReadAllowance(id)), id, job, Reserved(id, job),
                  Refreshing(s.db.allowances[job.allowanceId]))
  {
    ReadOutcome(t, id);
    StepKeepsInv(t, ReadAllowance(id));
    MovedOn(s, t, Next(t, ReadAllowance(id)), id, job, Reserved(id, job), Refreshing(s.db.allowances[job.allowanceId]));
  }

  lemma AllowanceIsRefreshed(s: State, t: State, id: nat, job: Job, record: Allowance, chain: ChainReply)
    requires Inv(t) && job.Payment? && Underway(s, t, id, job, Reserved(id, job), Refreshing(record))
    ensures
      && Enabled(t, Refresh(id, chain))
      && var u := Next(t, Refresh(id, chain));
         && Inv(u) && id in u.ops && u.ops[id].phase.Deciding?
         && Underway(s, u, id, job, Reserved(id, job), u.ops[id].phase)
         && u.ops[id].phase.allowance.identity == s.db.allowances[job.allowanceId].identity
  {
    RefreshOutcome(t, id, chain);
    StepKeepsInv(t, Refresh(id, chain));
    var u := Next(t, Refresh(id, chain));
    MovedOn(s, t, u, id, job, Reserved(id, job), u.ops[id].phase);
  }

  lemma PayableIsAllowed(t: State, id: nat, record: Allowance, chain: ChainReply, ledger: int)
    requires Inv(t) && Enabled(t, Refresh(id, chain)) && t.ops[id].phase.allowance == record
    requires Payable(t.ops[id].job.req, record, chain, ledger)
    ensures
      var u := Next(t, Refresh(id, chain));
      && id in u.ops && u.ops[id].phase.Deciding?
      && Preflight(t.ops[id].job.req, u.ops[id].phase.allowance, ledger).Allowed?
  {
    RefreshOutcome(t, id, chain);
    InsertedIsPlaced(t, id);
    PreflightReasons(t.ops[id].job.req, Next(t, Refresh(id, chain)).ops[id].phase.allowance, ledger);
  }

  lemma RefreshedIsAllowed(s: State, t: State, id: nat, job: Job, chain: ChainReply, ledger: int)
    requires Inv(t) && job.Payment? && Underway(s, t, id, job, Reserved(id, job), Reading)
    requires t.db.allowances == s.db.allowances && s.db.allowances[job.allowanceId].status != REVOKED
    requires Payable(job.req, s.db.allowances[job.allowanceId], chain, ledger)
    ensures
      var steps := [ReadAllowance(id), Refresh(id, chain)];
      && Runs(t, steps)
      && var u := Final(t, steps);
         && Inv(u) && id in u.ops && u.ops[id].phase.Deciding?
         && Underway(s, u, id, job, Reserved(id, job), u.ops[id].phase)
         && Preflight(job.req, u.ops[id].phase.allowance, ledger).Allowed?
  {
    var record := s.db.allowances[job.allowanceId];
    AllowanceIsRead(s, t, id, job);
    var m := Next(t, ReadAllowance(id));
    AllowanceIsRefreshed(s, m, id, job, record, chain);
    PayableIsAllowed(m, id, record, chain, ledger);
    RunsTwo(t, ReadAllowance(id), Refresh(id, chain));
  }

  lemma AllowedIsValidated(s: State, t: State, id: nat, job: Job, ledger: int)
    requires id in t.ops && t.ops[id].phase.Deciding? && job.Payment? && Inv(t)
    requires Underway(s, t, id, job, Reserved(id, job), t.ops[id].phase)
    requires Preflight(job.req, t.ops[id].phase.allowance, ledger).Allowed?
    ensures
      && Enabled(t, Decide(id, ledger))
      && Inv(Next(t, Decide(id, ledger)))
      && Underway(s, Next(t, Decide(id, ledger)), id, job, Reserved(id, job).(state := VALIDATED, decision := ALLOW),
                  Signing(t.ops[id].phase.allowance))
  {
    DecisionOutcome(t, id, ledger);
    StepKeepsInv(t, Decide(id, ledger));
    WroteOn(s, t, Next(t, Decide(id, ledger)), id, job, Standing(t, id, VALIDATED, ALLOW, None),
            Signing(t.ops[id].phase.allowance));
  }

  lemma ValidatedIsSigned(s: State, t: State, id: nat, job: Job, allowance: Allowance)
    requires job.Payment? && Inv(t)
    requires Underway(s, t, id, job, Reserved(id, job).(state := VALIDATED, decision := ALLOW), Signing(allowance))
    ensures
      && Enabled(t, Sign(id, Built))
      && Inv(Next(t, Sign(id, Built)))
      && Underway(s, Next(t, Sign(id, Built)), id, job, Reserved(id, job).(state := SIGNED, decision := ALLOW),
                  Signed(allowance))
  {
    SigningOutcome(t, id, Built);
    StepKeepsInv(t, Sign(id, Built));
    WroteOn(s, t, Next(t, Sign(id, Built)), id, job, Standing(t, id, SIGNED, ALLOW, None), Signed(allowance));
  }

  lemma AllowedIsSigned(s: State, t: State, id: nat, job: Job, ledger: int)
    requires id in t.ops && t.ops[id].phase.Deciding? && job.Payment? && Inv(t)
    requires Underway(s, t, id, job, Reserved(id, job), t.ops[id].phase)
    requires Preflight(job.req, t.ops[id].phase.allowance, ledger).Allowed?
    ensures
      var steps := [Decide(id, ledger), Sign(id, Built)];
      && Runs(t, steps)
      && Inv(Final(t, steps))
      && Underway(s, Final(t, steps), id, job, Reserved(id, job).(state := SIGNED, decision := ALLOW),
                  Signed(t.ops[id].phase.allowance))
  {
    AllowedIsValidated(s, t, id, job, ledger);
    ValidatedIsSigned(s, Next(t, Decide(id, ledger)), id, job, t.ops[id].phase.allowance);
    RunsTwo(t, Decide(id, ledger), Sign(id, Built));
  }

  function AuthorizingSteps(id: nat, job: Job, chain: ChainReply, ledger: int): seq<Action>
    requires job.Payment?
  {
    [StartPayment(id, job.kind, job.allowanceId, job.url, job.req, job.createdAt), Insert(id)]
    + ([ReadAllowance(id), Refresh(id, chain)] + [Decide(id, ledger), Sign(id, Built)])
  }

  /** From every reachable state a new request within a stored allowance can be reserved, allowed and signed. */
  lemma PayableIsSigned(s: State, id: nat, job: Job, chain: ChainReply, ledger: int)
    requires Inv(s) && id !in s.ops && job.Payment? && job.allowanceId in s.db.allowances
    requires Unattempted(s, Reserved(id, job)) && s.db.allowances[job.allowanceId].status != REVOKED
    requires Payable(job.req, s.db.allowances[job.allowanceId], chain, ledger)
    ensures Runs(s, AuthorizingSteps(id, job, chain, ledger))
    ensures
      var t := Final(s, AuthorizingSteps(id, job, chain, ledger));
      && Inv(t) && id in t.ops && t.ops[id].phase.Signed?
      && Underway(s, t, id, job, Reserved(id, job).(state := SIGNED, decision := ALLOW), t.ops[id].phase)
  {
    var first := [StartPayment(id, job.kind, job.allowanceId, job.url, job.req, job.createdAt), Insert(id)];
    var second := [ReadAllowance(id), Refresh(id, chain)];
    var third := [Decide(id, ledger), Sign(id, Built)];
    PaymentIsReserved(s, id, job);
    RefreshedIsAllowed(s, Final(s, first), id, job, chain, ledger);
    AllowedIsSigned(s, Final(Final(s, first), second), id, job, ledger);
    RunsOn(Final(s, first), second, third);
    RunsOn(s, first, second + third);
  }
}
