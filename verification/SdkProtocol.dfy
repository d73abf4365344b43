/**
  Any number of overlapping pay, fetch and reconcile operations over one evidence store, one store call or one
  network reply per step. Allowance creation, refresh and revocation by anyone else are arbitrary allowance writes,
  and an operation may be abandoned at any await, which also covers every exception that escapes it.
 */
module SdkProtocol {
  import opened Wrappers
  import opened Hashing
  import opened X402
  import opened EvidenceStore
  import Amounts

  datatype Kind = Pay | Fetch

  datatype Phase =
    | Reserving
    | Reading
    | Refreshing(allowance: Allowance)
    | Deciding(allowance: Allowance)
    | Signing(allowance: Allowance)
    | Signed(allowance: Allowance)
    | Submitted(allowance: Allowance)
    | Unlocking(receipt: Receipt, ok: bool)
    | Polling(snapshot: Attempt)
    | Finished

  /** A payment's key is the attempt ID it generates; a reconciliation names the attempt it looks at. */
  datatype Job =
    | Payment(kind: Kind, allowanceId: string, url: string, req: Requirements, createdAt: int)
    | Reconcile(attemptId: nat)

  datatype Op = Op(job: Job, phase: Phase)

  /** built and sent log the payments whose payload was signed, and sent to be settled. */
  datatype State = State(db: Db, ops: map<nat, Op>, built: seq<nat>, sent: seq<nat>)

  const INIT := State(Db(map[], map[]), map[], [], [])

  datatype ChainReply = Chain(ledger: int, spent: Option<int>) | ChainFailed

  datatype SignOutcome = Built | NoSigner | BuildFailed(reason: Reason)

  datatype MerchantError = Rejected | SettleFailed | OtherError

  /** What the paid request may come back with; a receipt is a decoded PAYMENT-RESPONSE header. */
  datatype PaidReply = NetworkError | NoReceipt(error: MerchantError) | WithReceipt(receipt: Receipt, ok: bool)

  datatype Action =
    | StartPayment(id: nat, kind: Kind, allowanceId: string, url: string, req: Requirements, createdAt: int)
    | Insert(id: nat)
    | ReadAllowance(id: nat)
    | Refresh(id: nat, chain: ChainReply)
    | Decide(id: nat, ledger: int)
    | Sign(id: nat, outcome: SignOutcome)
    | VerifyReturns(id: nat, isValid: bool)
    | SettleReturns(id: nat, settle: SettleReply)
    | Submit(id: nat)
    | Unlock(id: nat, paid: PaidReply)
    | ReadBody(id: nat)
    | StartReconcile(id: nat, attemptId: nat)
    | StatusReturns(id: nat, status: Option<Receipt>)
    | WriteAllowance(record: Allowance)
    | Abandon(id: nat)

  // ---- The records an operation writes ----

  function ReferenceOf(req: Requirements): Reference {
    if req.challengeId.Some? then Challenge(req.challengeId.value) else Hashed(Sha256(req))
  }

  function IdentityOf(id: nat, job: Job): AttemptIdentity
    requires job.Payment?
  {
    AttemptIdentity(id, job.allowanceId, job.url, ReferenceOf(job.req), Sha256(job.req), job.req.amount,
                    job.req.payTo, job.req.asset, job.createdAt)
  }

  /** The snapshot every later write of a payment starts from. */
  function Fresh(id: nat, job: Job): Attempt
    requires job.Payment?
  {
    Attempt(IdentityOf(id, job), CREATED, PENDING, None, None, None, None)
  }

  function Blocked(a: Attempt, reason: Reason): Attempt {
    a.(state := BLOCKED, decision := BLOCK, reasonCode := Some(reason))
  }

  function Unknown(a: Attempt): Attempt {
    a.(state := UNKNOWN, decision := PENDING, reasonCode := Some(SETTLEMENT_UNKNOWN))
  }

  function WithEvidence(a: Attempt, state: AttemptState, receipt: Receipt): Attempt {
    a.(state := state, decision := ALLOW, reasonCode := None, txHash := Some(receipt.transaction),
       receiptHash := Some(Sha256(receipt)), receipt := Some(receipt))
  }

  // ---- The allowance side ----

  function Refreshed(record: Allowance, chain: ChainReply): Allowance {
    match chain
    case ChainFailed => record.(status := ERROR)
    case Chain(ledger, spent) =>
      var spentAtomic := spent.GetOr(record.spentAtomic);
      var status :=
        if record.identity.validUntilLedger < ledger then EXPIRED
        else if spentAtomic >= record.identity.maxSpendAtomic then EXHAUSTED
        else ACTIVE;
      record.(spentAtomic := spentAtomic, status := status)
  }

  datatype PolicyDecision = Allowed(remaining: int) | Refused(reason: Reason) | MalformedAmount

  function Preflight(req: Requirements, allowance: Allowance, ledger: int): PolicyDecision {
    if req.network != allowance.identity.network then Refused(NETWORK_MISMATCH)
    else if req.asset != allowance.identity.assetContract then Refused(ASSET_NOT_ALLOWED)
    else if req.payTo !in allowance.identity.allowedRecipients then Refused(RECIPIENT_NOT_ALLOWED)
    else if allowance.status == REVOKED then Refused(ALLOWANCE_REVOKED)
    else if allowance.identity.validUntilLedger < ledger || allowance.status == EXPIRED then Refused(ALLOWANCE_EXPIRED)
    else if allowance.status != ACTIVE then Refused(ALLOWANCE_NOT_ACTIVE)
    else
      var amount := Amounts.ParseAtomicAmount(req.amount);
      var remaining := allowance.identity.maxSpendAtomic - allowance.spentAtomic;
      if amount.Err? then MalformedAmount
      else if amount.value > remaining then Refused(BUDGET_EXCEEDED)
      else Allowed(remaining - amount.value)
  }

  // ---- Steps ----

  predicate InPhase(s: State, id: nat, kind: Kind) {
    id in s.ops && s.ops[id].job.Payment? && s.ops[id].job.kind == kind
  }

  predicate Enabled(s: State, a: Action) {
    match a
    case StartPayment(id, _, _, _, _, _) => id !in s.ops
    case StartReconcile(id, _) => id !in s.ops
    case WriteAllowance(_) => true
    case Abandon(id) => id in s.ops && !s.ops[id].phase.Finished?
    case StatusReturns(id, _) => id in s.ops && s.ops[id].job.Reconcile? && s.ops[id].phase.Polling?
    case VerifyReturns(id, _) => InPhase(s, id, Pay) && s.ops[id].phase.Signed?
    case SettleReturns(id, _) => InPhase(s, id, Pay) && s.ops[id].phase.Submitted?
    case Submit(id) => InPhase(s, id, Fetch) && s.ops[id].phase.Signed?
    case Unlock(id, _) => InPhase(s, id, Fetch) && s.ops[id].phase.Submitted?
    case ReadBody(id) => InPhase(s, id, Fetch) && s.ops[id].phase.Unlocking?
    case Insert(id) => id in s.ops && s.ops[id].job.Payment? && s.ops[id].phase.Reserving?
    case ReadAllowance(id) => id in s.ops && s.ops[id].job.Payment? && s.ops[id].phase.Reading?
    case Refresh(id, _) => id in s.ops && s.ops[id].job.Payment? && s.ops[id].phase.Refreshing?
    case Decide(id, _) => id in s.ops && s.ops[id].job.Payment? && s.ops[id].phase.Deciding?
    case Sign(id, outcome) =>
      && id in s.ops && s.ops[id].job.Payment? && s.ops[id].phase.Signing?
      && (outcome.BuildFailed? ==> outcome.reason in {RECIPIENT_NOT_ALLOWED, BUDGET_EXCEEDED, FACILITATOR_REJECTED})
  }

  function Move(s: State, id: nat, phase: Phase): State
    requires id in s.ops
  {
    s.(ops := s.ops[id := s.ops[id].(phase := phase)])
  }

  /** Write the attempt and go on, or stop where the store refuses it. */
  function Put(s: State, id: nat, a: Attempt, phase: Phase): State
    requires id in s.ops
  {
    match PutAttempt(s.db, a)
    case Some(db) => Move(s, id, phase).(db := db)
    case None => Move(s, id, Finished)
  }

  predicate Decodable(receipt: Receipt) {
    receipt.success && receipt.transaction != "" && receipt.payer != ""
  }

  function AfterDecision(s: State, id: nat, decision: PolicyDecision): State
    requires id in s.ops && s.ops[id].job.Payment? && s.ops[id].phase.Deciding?
  {
    var op := s.ops[id];
    match decision
    case MalformedAmount => Move(s, id, Finished)
    case Refused(reason) => Put(s, id, Blocked(Fresh(id, op.job), reason), Finished)
    case Allowed(_) =>
      Put(s, id, Fresh(id, op.job).(state := VALIDATED, decision := ALLOW), Signing(op.phase.allowance))
  }

  function AfterUnlock(s: State, id: nat, paid: PaidReply): State
    requires InPhase(s, id, Fetch) && s.ops[id].phase.Submitted?
  {
    var op := s.ops[id];
    var attempt := Fresh(id, op.job);
    match paid
    case NetworkError => Put(s, id, Unknown(attempt), Finished)
    case NoReceipt(Rejected) => Put(s, id, Blocked(attempt, FACILITATOR_REJECTED), Finished)
    case NoReceipt(SettleFailed) => Put(s, id, Unknown(attempt), Finished)
    case NoReceipt(OtherError) => Put(s, id, Blocked(attempt, RESOURCE_UNLOCK_FAILED), Finished)
    case WithReceipt(receipt, ok) =>
      if !Decodable(receipt) then Move(s, id, Finished)
      else if !ReceiptMatches(receipt, op.job.req, op.phase.allowance.identity.treasuryContract)
      then Put(s, id, Blocked(attempt, RECEIPT_MISMATCH), Finished)
      else Move(s, id, Unlocking(receipt, ok))
  }

  function AfterSettle(s: State, id: nat, settle: SettleReply): State
    requires InPhase(s, id, Pay) && s.ops[id].phase.Submitted?
  {
    var op := s.ops[id];
    var attempt := Fresh(id, op.job);
    var receipt := ClientReceipt(settle, op.job.req);
    if receipt.Some? && ReceiptMatches(receipt.value, op.job.req, op.phase.allowance.identity.treasuryContract)
       && PutAttempt(s.db, WithEvidence(attempt, SETTLED, receipt.value)).Some?
    then Put(s, id, WithEvidence(attempt, SETTLED, receipt.value), Finished)
    else Put(s, id, Unknown(attempt), Finished)
  }

  function Next(s: State, a: Action): State
    requires Enabled(s, a)
  {
    match a
    case StartPayment(id, kind, allowanceId, url, req, createdAt) =>
      var job := Payment(kind, allowanceId, url, req, createdAt);
      s.(ops := s.ops[id := Op(job, if ReferenceTaken(s.db.attempts, Fresh(id, job)) then Finished else Reserving)])
    case Insert(id) => Put(s, id, Fresh(id, s.ops[id].job), Reading)
    case ReadAllowance(id) =>
      var key := s.ops[id].job.allowanceId;
      if key !in s.db.allowances then Move(s, id, Finished)
      else if s.db.allowances[key].status == REVOKED then Move(s, id, Deciding(s.db.allowances[key]))
      else Move(s, id, Refreshing(s.db.allowances[key]))
    case Refresh(id, chain) =>
      var updated := Refreshed(s.ops[id].phase.allowance, chain);
      Move(s, id, Deciding(updated)).(db := PutAllowance(s.db, updated).GetOr(s.db))
    case Decide(id, ledger) =>
      AfterDecision(s, id, Preflight(s.ops[id].job.req, s.ops[id].phase.allowance, ledger))
    case Sign(id, outcome) =>
      var op := s.ops[id];
      (match outcome
       case NoSigner => Put(s, id, Blocked(Fresh(id, op.job), SIGNER_NOT_AUTHORIZED), Finished)
       case BuildFailed(reason) => Put(s, id, Blocked(Fresh(id, op.job), reason), Finished)
       case Built =>
         Put(s, id, Fresh(id, op.job).(state := SIGNED, decision := ALLOW), Signed(op.phase.allowance))
           .(built := s.built + [id]))
    case VerifyReturns(id, isValid) =>
      var op := s.ops[id];
      if isValid
      then Put(s, id, Fresh(id, op.job).(state := SUBMITTED), Submitted(op.phase.allowance)).(sent := s.sent + [id])
      else Put(s, id, Blocked(Fresh(id, op.job), FACILITATOR_REJECTED), Finished)
    case SettleReturns(id, settle) => AfterSettle(s, id, settle)
    case Submit(id) =>
      var op := s.ops[id];
      Put(s, id, Fresh(id, op.job).(state := SUBMITTED), Submitted(op.phase.allowance)).(sent := s.sent + [id])
    case Unlock(id, paid) => AfterUnlock(s, id, paid)
    case ReadBody(id) =>
      var op := s.ops[id];
      var settled := WithEvidence(Fresh(id, op.job), SETTLED, op.phase.receipt);
      if op.phase.ok then Put(s, id, settled.(state := UNLOCKED), Finished)
      else Put(s, id, settled.(decision := FAULT, reasonCode := Some(RESOURCE_UNLOCK_FAILED)), Finished)
    case StartReconcile(id, attemptId) =>
      var phase :=
        if attemptId in s.db.attempts && s.db.attempts[attemptId].state in {UNKNOWN, SUBMITTED}
        then Polling(s.db.attempts[attemptId]) else Finished;
      s.(ops := s.ops[id := Op(Reconcile(attemptId), phase)])
    case StatusReturns(id, status) =>
      if status.Some? && status.value.success
      then Put(s, id, WithEvidence(s.ops[id].phase.snapshot, SETTLED, status.value), Finished)
      else Move(s, id, Finished)
    case WriteAllowance(record) => s.(db := PutAllowance(s.db, record).GetOr(s.db))
    case Abandon(id) => Move(s, id, Finished)
  }

  ghost predicate Runs(s: State, actions: seq<Action>)
    decreases |actions|
  {
    actions == [] || (Enabled(s, actions[0]) && Runs(Next(s, actions[0]), actions[1..]))
  }

  ghost function Final(s: State, actions: seq<Action>): State
    requires Runs(s, actions)
    decreases |actions|
  {
    if actions == [] then s else Final(Next(s, actions[0]), actions[1..])
  }

  // ---- The invariant ----

  predicate Inserted(p: Phase) {
    !p.Reserving? && !p.Finished?
  }

  predicate CarriesAllowance(p: Phase) {
    p.Refreshing? || p.Deciding? || p.Signing? || p.Signed? || p.Submitted?
  }

  ghost predicate RowsOwned(s: State) {
    forall k :: k in s.db.attempts ==>
      && k in s.ops && s.ops[k].job.Payment? && !s.ops[k].phase.Reserving?
      && s.db.attempts[k].identity == IdentityOf(k, s.ops[k].job)
  }

  ghost predicate PaymentOk(db: Db, id: nat, job: Job, phase: Phase)
    requires job.Payment?
  {
    && !phase.Polling?
    && (Inserted(phase) ==> id in db.attempts && job.allowanceId in db.allowances)
    && (CarriesAllowance(phase) ==> phase.allowance.identity == db.allowances[job.allowanceId].identity)
    && (phase.Unlocking? ==>
          && job.kind.Fetch?
          && ReceiptMatches(phase.receipt, job.req, db.allowances[job.allowanceId].identity.treasuryContract))
  }

  ghost predicate ReconcileOk(db: Db, attemptId: nat, phase: Phase) {
    && (phase.Finished? || phase.Polling?)
    && (phase.Polling? ==>
          && attemptId in db.attempts
          && phase.snapshot.identity == db.attempts[attemptId].identity
          && phase.snapshot.state in {UNKNOWN, SUBMITTED}
          && phase.snapshot.receipt.None?)
  }

  ghost predicate OpOk(db: Db, id: nat, op: Op) {
    if op.job.Payment? then PaymentOk(db, id, op.job, op.phase) else ReconcileOk(db, op.job.attemptId, op.phase)
  }

  ghost predicate OpsOk(s: State) {
    forall k :: k in s.ops ==> OpOk(s.db, k, s.ops[k])
  }

  /** A receipt stands in a row exactly in the two settled states, with the two columns derived from it. */
  ghost predicate Evidence(a: Attempt) {
    && (a.receipt.Some? <==> a.state in {SETTLED, UNLOCKED})
    && (a.receipt.Some? ==>
          a.txHash == Some(a.receipt.value.transaction) && a.receiptHash == Some(Sha256(a.receipt.value)))
    && (a.receipt.None? ==> a.txHash.None? && a.receiptHash.None?)
  }

  /** An unlocked row's receipt is for the row's own payment, paid by its allowance's treasury. */
  ghost predicate UnlockedMatches(a: Attempt, treasury: string) {
    a.state == UNLOCKED && a.receipt.Some? ==>
      && a.receipt.value.success
      && a.receipt.value.amount == a.identity.amountAtomic
      && a.receipt.value.payTo == a.identity.payTo
      && a.receipt.value.asset == a.identity.assetContract
      && a.receipt.value.payer == treasury
      && (a.identity.reference.Challenge? ==> a.receipt.value.challengeId == a.identity.reference.id)
      && IsHex64(a.receipt.value.transaction)
  }

  ghost predicate RowOk(db: Db, a: Attempt) {
    && Evidence(a)
    && a.identity.allowanceId in db.allowances
    && UnlockedMatches(a, db.allowances[a.identity.allowanceId].identity.treasuryContract)
  }

  ghost predicate RowsOk(s: State) {
    forall k :: k in s.db.attempts ==> RowOk(s.db, s.db.attempts[k])
  }

  ghost predicate Distinct(log: seq<nat>) {
    forall i, j :: 0 <= i < j < |log| ==> log[i] != log[j]
  }

  predicate PastSend(p: Phase) {
    p.Submitted? || p.Unlocking? || p.Finished?
  }

  predicate PastBuild(p: Phase) {
    p.Signed? || PastSend(p)
  }

  ghost predicate LogsOk(s: State) {
    && Distinct(s.built) && Distinct(s.sent)
    && (forall k :: k in s.built ==>
          k in s.db.attempts && k in s.ops && s.ops[k].job.Payment? && PastBuild(s.ops[k].phase))
    && (forall k :: k in s.sent ==> k in s.built && PastSend(s.ops[k].phase))
    && (forall k :: k in s.ops && s.ops[k].phase.Signed? ==> k in s.built)
  }

  ghost predicate Inv(s: State) {
    Consistent(s.db) && RowsOwned(s) && OpsOk(s) && RowsOk(s) && LogsOk(s)
  }

  // ---- Every step keeps it ----

  lemma OpsSurvive(s: State, db: Db)
    requires OpsOk(s) && Extends(s.db, db)
    ensures OpsOk(s.(db := db))
  {
  }

  lemma OpsMoved(s: State, id: nat, phase: Phase)
    requires OpsOk(s) && id in s.ops && OpOk(s.db, id, s.ops[id].(phase := phase))
    ensures OpsOk(Move(s, id, phase))
  {
  }

  lemma AllowanceWritten(s: State, record: Allowance)
    requires Inv(s)
    ensures Inv(s.(db := PutAllowance(s.db, record).GetOr(s.db)))
    ensures Extends(s.db, PutAllowance(s.db, record).GetOr(s.db))
  {
    var db := PutAllowance(s.db, record).GetOr(s.db);
    if PutAllowance(s.db, record).Some? {
      PutAllowanceKeeps(s.db, record);
    }
    OpsSurvive(s, db);
    forall k | k in db.attempts ensures RowOk(db, db.attempts[k]) {
      assert RowOk(s.db, s.db.attempts[k]);
    }
  }

  predicate Advances(p: Phase, q: Phase) {
    || q.Finished?
    || (p.Reading? && (q.Refreshing? || q.Deciding?))
    || (p.Refreshing? && q.Deciding?)
    || (p.Deciding? && q.Signing?)
    || (p.Submitted? && q.Unlocking?)
  }

  lemma LogsMoved(s: State, id: nat, phase: Phase)
    requires LogsOk(s) && id in s.ops && Advances(s.ops[id].phase, phase)
    ensures LogsOk(Move(s, id, phase))
  {
  }

  lemma RowsOwnedMoved(s: State, id: nat, phase: Phase)
    requires RowsOwned(s) && id in s.ops && !phase.Reserving?
    ensures RowsOwned(Move(s, id, phase))
  {
  }

  lemma MoveKeepsInv(s: State, id: nat, phase: Phase)
    requires Inv(s) && id in s.ops
    requires Advances(s.ops[id].phase, phase)
    requires OpOk(s.db, id, s.ops[id].(phase := phase))
    ensures Inv(Move(s, id, phase))
  {
    OpsMoved(s, id, phase);
    LogsMoved(s, id, phase);
    RowsOwnedMoved(s, id, phase);
  }

  /** A payment rewrites its own existing row. */
  lemma RewriteKeepsInv(s: State, id: nat, a: Attempt)
    requires Inv(s) && a.identity.attemptId == id && id in s.db.attempts && s.db.attempts[id].identity == a.identity
    requires RowOk(s.db, a)
    ensures PutAttempt(s.db, a).Some? ==>
      && Inv(s.(db := PutAttempt(s.db, a).value)) && Extends(s.db, PutAttempt(s.db, a).value)
      && PutAttempt(s.db, a).value == s.db.(attempts := s.db.attempts[id := a])
  {
    if PutAttempt(s.db, a).Some? {
      var db := PutAttempt(s.db, a).value;
      PutAttemptKeeps(s.db, a);
      OpsSurvive(s, db);
      forall k | k in db.attempts ensures RowOk(db, db.attempts[k]) {
        assert k != id ==> RowOk(s.db, s.db.attempts[k]);
      }
    }
  }

  /** The common shape of a payment's write: its own row, no receipt, then finish or go on. */
  lemma PlainWrite(s: State, id: nat, a: Attempt)
    requires Inv(s) && id in s.ops && s.ops[id].job.Payment? && Inserted(s.ops[id].phase)
    requires a.identity == IdentityOf(id, s.ops[id].job)
    requires a.receipt.None? && a.txHash.None? && a.receiptHash.None? && a.state !in {SETTLED, UNLOCKED}
    ensures PutAttempt(s.db, a).Some?
    ensures Inv(s.(db := PutAttempt(s.db, a).value)) && Extends(s.db, PutAttempt(s.db, a).value)
    ensures Inv(Put(s, id, a, Finished))
  {
    assert OpOk(s.db, id, s.ops[id]);
    assert s.db.attempts[id].identity == a.identity;
    assert RowOk(s.db, s.db.attempts[id]);
    RewriteKeepsInv(s, id, a);
    MoveKeepsInv(s.(db := PutAttempt(s.db, a).value), id, Finished);
  }

  lemma EvidenceWrite(s: State, id: nat, target: nat, a: Attempt)
    requires Inv(s) && id in s.ops && !s.ops[id].phase.Finished?
    requires a.identity.attemptId == target && target in s.db.attempts && s.db.attempts[target].identity == a.identity
    requires RowOk(s.db, a)
    ensures Inv(Put(s, id, a, Finished))
  {
    RewriteKeepsInv(s, target, a);
    if PutAttempt(s.db, a).Some? {
      MoveKeepsInv(s.(db := PutAttempt(s.db, a).value), id, Finished);
    } else {
      MoveKeepsInv(s, id, Finished);
    }
  }

  lemma StartKeepsInv(s: State, id: nat, op: Op)
    requires Inv(s) && id !in s.ops && OpOk(s.db, id, op)
    ensures Inv(s.(ops := s.ops[id := op]))
  {
  }

  lemma RowInserted(s: State, db: Db, id: nat, a: Attempt)
    requires RowsOk(s) && id !in s.db.attempts && a.state == CREATED
    requires a.receipt.None? && a.txHash.None? && a.receiptHash.None? && a.identity.allowanceId in s.db.allowances
    requires db == s.db.(attempts := s.db.attempts[id := a])
    ensures RowsOk(s.(db := db))
  {
  }

  lemma RowOwned(s: State, db: Db, id: nat)
    requires RowsOwned(s) && id in s.ops && s.ops[id].job.Payment?
    requires db == s.db.(attempts := s.db.attempts[id := Fresh(id, s.ops[id].job)])
    ensures RowsOwned(Move(s.(db := db), id, Reading))
  {
  }

  lemma InsertedInv(s: State, id: nat, db: Db)
    requires Inv(s) && id in s.ops && s.ops[id].job.Payment? && s.ops[id].phase.Reserving? && id !in s.db.attempts
    requires PutAttempt(s.db, Fresh(id, s.ops[id].job)) == Some(db)
    ensures Inv(Move(s.(db := db), id, Reading))
  {
    var a := Fresh(id, s.ops[id].job);
    PutAttemptKeeps(s.db, a);
    OpsSurvive(s, db);
    OpsMoved(s.(db := db), id, Reading);
    RowInserted(s, db, id, a);
    RowOwned(s, db, id);
  }

  lemma InsertKeepsInv(s: State, id: nat)
    requires Inv(s) && Enabled(s, Insert(id))
    ensures Inv(Next(s, Insert(id)))
  {
    var a := Fresh(id, s.ops[id].job);
    assert OpOk(s.db, id, s.ops[id]);
    if PutAttempt(s.db, a).None? {
      MoveKeepsInv(s, id, Finished);
    } else {
      InsertedInv(s, id, PutAttempt(s.db, a).value);
    }
  }

  /** Signing and sending: the payment's own row, and its key appended to a log. */
  lemma LogKeepsInv(s: State, id: nat, a: Attempt, phase: Phase)
    requires Inv(s) && id in s.ops && s.ops[id].job.Payment?
    requires a.identity == IdentityOf(id, s.ops[id].job)
    requires a.receipt.None? && a.txHash.None? && a.receiptHash.None? && a.state !in {SETTLED, UNLOCKED}
    requires OpOk(s.db, id, s.ops[id].(phase := phase))
    ensures s.ops[id].phase.Signing? && phase.Signed? ==> Inv(Put(s, id, a, phase).(built := s.built + [id]))
    ensures s.ops[id].phase.Signed? && phase.Submitted? ==> Inv(Put(s, id, a, phase).(sent := s.sent + [id]))
  {
    if (s.ops[id].phase.Signing? && phase.Signed?) || (s.ops[id].phase.Signed? && phase.Submitted?) {
      PlainWrite(s, id, a);
      var t := s.(db := PutAttempt(s.db, a).value);
      assert OpOk(t.db, id, t.ops[id].(phase := phase));
      OpsMoved(t, id, phase);
      RowsOwnedMoved(t, id, phase);
      LogsAppended(t, id, phase);
    }
  }

  lemma LogsAppended(s: State, id: nat, phase: Phase)
    requires LogsOk(s) && id in s.ops && s.ops[id].job.Payment? && id in s.db.attempts
    ensures s.ops[id].phase.Signing? && phase.Signed? ==> LogsOk(Move(s, id, phase).(built := s.built + [id]))
    ensures s.ops[id].phase.Signed? && phase.Submitted? ==> LogsOk(Move(s, id, phase).(sent := s.sent + [id]))
  {
  }

  lemma ValidateKeepsInv(s: State, id: nat)
    requires Inv(s) && id in s.ops && s.ops[id].job.Payment? && s.ops[id].phase.Deciding?
    ensures Inv(Put(s, id, Fresh(id, s.ops[id].job).(state := VALIDATED, decision := ALLOW),
                    Signing(s.ops[id].phase.allowance)))
  {
    var op := s.ops[id];
    var phase := Signing(op.phase.allowance);
    var a := Fresh(id, op.job).(state := VALIDATED, decision := ALLOW);
    PlainWrite(s, id, a);
    var t := s.(db := PutAttempt(s.db, a).value);
    assert OpOk(t.db, id, t.ops[id]);
    MoveKeepsInv(t, id, phase);
  }

  lemma DecideKeepsInv(s: State, id: nat, decision: PolicyDecision)
    requires Inv(s) && id in s.ops && s.ops[id].job.Payment? && s.ops[id].phase.Deciding?
    ensures Inv(AfterDecision(s, id, decision))
  {
    assert OpOk(s.db, id, s.ops[id]);
    match decision
    case MalformedAmount => MoveKeepsInv(s, id, Finished);
    case Refused(reason) => PlainWrite(s, id, Blocked(Fresh(id, s.ops[id].job), reason));
    case Allowed(_) => ValidateKeepsInv(s, id);
  }

  lemma RefreshedInv(s: State, db: Db, id: nat, updated: Allowance)
    requires Inv(s.(db := db)) && id in s.ops && s.ops[id].job.Payment? && s.ops[id].phase.Refreshing?
    requires PaymentOk(db, id, s.ops[id].job, s.ops[id].phase)
    requires updated.identity == s.ops[id].phase.allowance.identity
    ensures Inv(Move(s.(db := db), id, Deciding(updated)))
  {
    MoveKeepsInv(s.(db := db), id, Deciding(updated));
  }

  lemma RefreshKeepsInv(s: State, id: nat, chain: ChainReply)
    requires Inv(s) && Enabled(s, Refresh(id, chain))
    ensures Inv(Next(s, Refresh(id, chain)))
  {
    var updated := Refreshed(s.ops[id].phase.allowance, chain);
    var db := PutAllowance(s.db, updated).GetOr(s.db);
    AllowanceWritten(s, updated);
    assert OpOk(db, id, s.(db := db).ops[id]);
    RefreshedInv(s, db, id, updated);
  }

  lemma SettledRowOk(s: State, id: nat, receipt: Receipt, state: AttemptState)
    requires Inv(s) && id in s.ops && s.ops[id].job.Payment? && Inserted(s.ops[id].phase)
    requires state in {SETTLED, UNLOCKED}
    requires ReceiptMatches(receipt, s.ops[id].job.req,
                            s.db.allowances[s.ops[id].job.allowanceId].identity.treasuryContract)
    ensures RowOk(s.db, WithEvidence(Fresh(id, s.ops[id].job), state, receipt))
    ensures id in s.db.attempts && s.db.attempts[id].identity == IdentityOf(id, s.ops[id].job)
  {
  }

  lemma AfterSettleKeepsInv(s: State, id: nat, settle: SettleReply)
    requires Inv(s) && Enabled(s, SettleReturns(id, settle))
    ensures Inv(AfterSettle(s, id, settle))
  {
    var op := s.ops[id];
    assert OpOk(s.db, id, op);
    var receipt := ClientReceipt(settle, op.job.req);
    if AfterSettle(s, id, settle) == Put(s, id, Unknown(Fresh(id, op.job)), Finished) {
      PlainWrite(s, id, Unknown(Fresh(id, op.job)));
    } else {
      SettledRowOk(s, id, receipt.value, SETTLED);
      EvidenceWrite(s, id, id, WithEvidence(Fresh(id, op.job), SETTLED, receipt.value));
    }
  }

  lemma AfterUnlockKeepsInv(s: State, id: nat, paid: PaidReply)
    requires Inv(s) && Enabled(s, Unlock(id, paid))
    ensures Inv(AfterUnlock(s, id, paid))
  {
    var op := s.ops[id];
    assert OpOk(s.db, id, op);
    match paid
    case NetworkError => PlainWrite(s, id, Unknown(Fresh(id, op.job)));
    case NoReceipt(Rejected) => PlainWrite(s, id, Blocked(Fresh(id, op.job), FACILITATOR_REJECTED));
    case NoReceipt(SettleFailed) => PlainWrite(s, id, Unknown(Fresh(id, op.job)));
    case NoReceipt(OtherError) => PlainWrite(s, id, Blocked(Fresh(id, op.job), RESOURCE_UNLOCK_FAILED));
    case WithReceipt(receipt, ok) => ReceiptReadKeepsInv(s, id, paid);
  }

  lemma UnlockingKeepsInv(s: State, id: nat, receipt: Receipt, ok: bool)
    requires Inv(s) && InPhase(s, id, Fetch) && s.ops[id].phase.Submitted?
    requires PaymentOk(s.db, id, s.ops[id].job, s.ops[id].phase)
    requires ReceiptMatches(receipt, s.ops[id].job.req, s.ops[id].phase.allowance.identity.treasuryContract)
    ensures Inv(Move(s, id, Unlocking(receipt, ok)))
  {
    MoveKeepsInv(s, id, Unlocking(receipt, ok));
  }

  lemma ReceiptReadKeepsInv(s: State, id: nat, paid: PaidReply)
    requires Inv(s) && Enabled(s, Unlock(id, paid)) && paid.WithReceipt?
    ensures Inv(AfterUnlock(s, id, paid))
  {
    var op := s.ops[id];
    assert OpOk(s.db, id, op);
    if !Decodable(paid.receipt) {
      AbandonKeepsInv(s, id);
    } else if ReceiptMatches(paid.receipt, op.job.req, op.phase.allowance.identity.treasuryContract) {
      UnlockingKeepsInv(s, id, paid.receipt, paid.ok);
    } else {
      PlainWrite(s, id, Blocked(Fresh(id, op.job), RECEIPT_MISMATCH));
    }
  }

  lemma ReadBodyKeepsInv(s: State, id: nat)
    requires Inv(s) && Enabled(s, ReadBody(id))
    ensures Inv(Next(s, ReadBody(id)))
  {
    var op := s.ops[id];
    assert OpOk(s.db, id, op);
    var settled := WithEvidence(Fresh(id, op.job), SETTLED, op.phase.receipt);
    SettledRowOk(s, id, op.phase.receipt, SETTLED);
    SettledRowOk(s, id, op.phase.receipt, UNLOCKED);
    if op.phase.ok {
      EvidenceWrite(s, id, id, settled.(state := UNLOCKED));
    } else {
      EvidenceWrite(s, id, id, settled.(decision := FAULT, reasonCode := Some(RESOURCE_UNLOCK_FAILED)));
    }
  }

  lemma StatusKeepsInv(s: State, id: nat, status: Option<Receipt>)
    requires Inv(s) && Enabled(s, StatusReturns(id, status))
    ensures Inv(Next(s, StatusReturns(id, status)))
  {
    var op := s.ops[id];
    assert OpOk(s.db, id, op);
    if status.Some? && status.value.success {
      EvidenceWrite(s, id, op.job.attemptId, WithEvidence(op.phase.snapshot, SETTLED, status.value));
    } else {
      MoveKeepsInv(s, id, Finished);
    }
  }

  lemma SignKeepsInv(s: State, id: nat, outcome: SignOutcome)
    requires Inv(s) && Enabled(s, Sign(id, outcome))
    ensures Inv(Next(s, Sign(id, outcome)))
  {
    var op := s.ops[id];
    assert OpOk(s.db, id, op);
    match outcome
    case NoSigner => PlainWrite(s, id, Blocked(Fresh(id, op.job), SIGNER_NOT_AUTHORIZED));
    case BuildFailed(reason) => PlainWrite(s, id, Blocked(Fresh(id, op.job), reason));
    case Built =>
      LogKeepsInv(s, id, Fresh(id, op.job).(state := SIGNED, decision := ALLOW), Signed(op.phase.allowance));
  }

  lemma SendKeepsInv(s: State, a: Action)
    requires Inv(s) && Enabled(s, a) && (a.VerifyReturns? || a.Submit?)
    ensures Inv(Next(s, a))
  {
    var op := s.ops[a.id];
    assert OpOk(s.db, a.id, op);
    if a.VerifyReturns? && !a.isValid {
      PlainWrite(s, a.id, Blocked(Fresh(a.id, op.job), FACILITATOR_REJECTED));
    } else {
      LogKeepsInv(s, a.id, Fresh(a.id, op.job).(state := SUBMITTED), Submitted(op.phase.allowance));
    }
  }

  lemma ReadAllowanceKeepsInv(s: State, id: nat)
    requires Inv(s) && Enabled(s, ReadAllowance(id))
    ensures Inv(Next(s, ReadAllowance(id)))
  {
    var op := s.ops[id];
    assert OpOk(s.db, id, op);
    var record := s.db.allowances[op.job.allowanceId];
    MoveKeepsInv(s, id, Deciding(record));
    MoveKeepsInv(s, id, Refreshing(record));
  }

  lemma StepKeepsInv(s: State, a: Action)
    requires Inv(s) && Enabled(s, a)
    ensures Inv(Next(s, a))
  {
    match a
    case StartPayment(id, _, _, _, _, _) => StartKeepsInv(s, id, Next(s, a).ops[id]);
    case Insert(id) => InsertKeepsInv(s, id);
    case ReadAllowance(id) => ReadAllowanceKeepsInv(s, id);
    case Refresh(id, chain) => RefreshKeepsInv(s, id, chain);
    case Decide(id, ledger) =>
      DecideKeepsInv(s, id, Preflight(s.ops[id].job.req, s.ops[id].phase.allowance, ledger));
    case Sign(id, outcome) => SignKeepsInv(s, id, outcome);
    case VerifyReturns(_, _) => SendKeepsInv(s, a);
    case SettleReturns(id, settle) => AfterSettleKeepsInv(s, id, settle);
    case Submit(_) => SendKeepsInv(s, a);
    case Unlock(id, paid) => AfterUnlockKeepsInv(s, id, paid);
    case ReadBody(id) => ReadBodyKeepsInv(s, id);
    case StartReconcile(id, _) => StartReconcileKeepsInv(s, a);
    case StatusReturns(id, status) => StatusKeepsInv(s, id, status);
    case WriteAllowance(record) => AllowanceWritten(s, record);
    case Abandon(id) => AbandonKeepsInv(s, id);
  }

  lemma StartReconcileKeepsInv(s: State, a: Action)
    requires Inv(s) && Enabled(s, a) && a.StartReconcile?
    ensures Inv(Next(s, a))
  {
    assert a.attemptId in s.db.attempts ==> RowOk(s.db, s.db.attempts[a.attemptId]);
    StartKeepsInv(s, a.id, Next(s, a).ops[a.id]);
  }

  lemma AbandonKeepsInv(s: State, id: nat)
    requires Inv(s) && Enabled(s, Abandon(id))
    ensures Inv(Next(s, Abandon(id)))
  {
    assert OpOk(s.db, id, s.ops[id]);
    MoveKeepsInv(s, id, Finished);
  }

  lemma {:induction false} RunKeepsInv(s: State, actions: seq<Action>)
    requires Inv(s) && Runs(s, actions)
    ensures Inv(Final(s, actions))
    decreases |actions|
  {
    if actions != [] {
      StepKeepsInv(s, actions[0]);
      RunKeepsInv(Next(s, actions[0]), actions[1..]);
    }
  }

  // ---- What every run guarantees ----

  /** Each step leaves the tables alone or makes one upsert. */
  lemma StepWrites(s: State, a: Action)
    requires Enabled(s, a)
    ensures
      var db := Next(s, a).db;
      || db == s.db
      || (exists row :: PutAttempt(s.db, row) == Some(db))
      || (exists row :: PutAllowance(s.db, row) == Some(db))
  {
  }

  lemma StepExtends(s: State, a: Action)
    requires Inv(s) && Enabled(s, a)
    ensures Extends(s.db, Next(s, a).db)
  {
    StepWrites(s, a);
    if row :| PutAttempt(s.db, row) == Some(Next(s, a).db) {
      PutAttemptKeeps(s.db, row);
    } else if row :| PutAllowance(s.db, row) == Some(Next(s, a).db) {
      PutAllowanceKeeps(s.db, row);
    }
  }

  /** Identity columns never change after insertion, and rows never disappear. */
  lemma {:induction false} IdentityIsForever(s: State, actions: seq<Action>)
    requires Inv(s) && Runs(s, actions)
    ensures Extends(s.db, Final(s, actions).db)
    decreases |actions|
  {
    if actions != [] {
      StepKeepsInv(s, actions[0]);
      StepExtends(s, actions[0]);
      IdentityIsForever(Next(s, actions[0]), actions[1..]);
    }
  }

  /**
    Over every interleaving each allowance and request has at most one attempt and refers to a stored allowance,
    and at most one payload is ever signed for it, and at most one sent.
   */
  lemma OnePayloadPerRequest(actions: seq<Action>)
    requires Runs(INIT, actions)
    ensures
      var s := Final(INIT, actions);
      && (forall k :: k in s.db.attempts ==> s.db.attempts[k].identity.allowanceId in s.db.allowances)
      && UniqueReferences(s.db)
      && OnePerRequest(s.db, s.built)
      && OnePerRequest(s.db, s.sent)
      && (forall k :: k in s.sent ==> k in s.built)
  {
    RunKeepsInv(INIT, actions);
    var s := Final(INIT, actions);
    LogIsOnePerRequest(s.db, s.built);
    LogIsOnePerRequest(s.db, s.sent);
  }

  /** The log holds stored attempts, no two entries for the same allowance and request. */
  ghost predicate OnePerRequest(db: Db, log: seq<nat>) {
    && (forall i :: 0 <= i < |log| ==> log[i] in db.attempts)
    && (forall i, j | 0 <= i < j < |log| ::
          !SameReference(db.attempts[log[i]].identity, db.attempts[log[j]].identity))
  }

  lemma LogIsOnePerRequest(db: Db, log: seq<nat>)
    requires UniqueReferences(db) && Distinct(log) && forall k :: k in log ==> k in db.attempts
    ensures OnePerRequest(db, log)
  {
  }

  /** In every reachable row: the receipt columns, and for an unlocked row whose payment the receipt is. */
  lemma EvidenceStands(actions: seq<Action>, k: nat)
    requires Runs(INIT, actions) && k in Final(INIT, actions).db.attempts
    ensures
      var db := Final(INIT, actions).db;
      var a := db.attempts[k];
      && a.identity.allowanceId in db.allowances
      && Evidence(a)
      && UnlockedMatches(a, db.allowances[a.identity.allowanceId].identity.treasuryContract)
  {
    RunKeepsInv(INIT, actions);
    var s := Final(INIT, actions);
    assert RowOk(s.db, s.db.attempts[k]);
  }
}
