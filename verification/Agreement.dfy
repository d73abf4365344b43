/**
  The SDK and the merchant composed. A fetch sends its payload to the merchant, which receives it at most once;
  replies and status lookups may be lost. Anyone else may talk to the merchant too, but with other payloads.
 */
module Agreement {
  import opened Wrappers
  import opened X402
  import opened EvidenceStore
  import M = MerchantProtocol
  import K = SdkProtocol

  /** hashes: the payload hash each sent fetch uses. delivered: the merchant handler that received it. */
  datatype State = State(m: M.State, k: K.State, hashes: map<nat, string>, delivered: map<nat, nat>)

  const INIT := State(M.INIT, K.INIT, map[], map[])

  datatype Action =
    | AtMerchant(step: M.Action)
    | AtSdk(call: K.Action)
    | Send(op: nat, hash: string)
    | Deliver(op: nat, h: nat)
    | Reply(op: nat)
    | LoseReply(op: nat)
    | Status(op: nat)
    | LoseStatus(op: nat)

  /** How the SDK reads the merchant's answer; only a 200 carries a receipt header. */
  function PaidReplyOf(phase: M.Phase): K.PaidReply {
    if phase.Done? && phase.reply.Unlocked? then K.WithReceipt(phase.reply.receipt, true)
    else if phase == M.Done(M.FacilitatorRejected) then K.NoReceipt(K.Rejected)
    else if phase == M.Done(M.SettlementFailed) then K.NoReceipt(K.SettleFailed)
    else K.NoReceipt(K.OtherError)
  }

  /** The payment status route: a stored receipt, or an answer without one. */
  function StatusOf(m: M.State, reference: Reference): Option<Receipt> {
    if reference.Challenge? && reference.id in m.rows then m.rows[reference.id].receipt else None
  }

  predicate Answered(s: State, op: nat) {
    && op in s.delivered && s.delivered[op] in s.m.handlers
    && (s.m.handlers[s.delivered[op]].phase.Done? || s.m.handlers[s.delivered[op]].phase.Crashed?)
  }

  predicate PollsStatus(s: State, op: nat) {
    op in s.k.ops && s.k.ops[op].job.Reconcile? && s.k.ops[op].phase.Polling?
  }

  predicate Enabled(s: State, a: Action) {
    match a
    case AtMerchant(step) =>
      M.Enabled(s.m, step) && (step.Arrive? ==> forall op | op in s.hashes :: s.hashes[op] != step.hash)
    case AtSdk(call) => K.Enabled(s.k, call) && !call.Submit? && !call.Unlock? && !call.StatusReturns?
    case Send(op, hash) =>
      && K.Enabled(s.k, K.Submit(op)) && hash != ""
      && (forall o | o in s.hashes :: s.hashes[o] != hash)
      && (forall h | h in s.m.handlers :: s.m.handlers[h].hash != hash)
    case Deliver(op, h) =>
      && op in s.hashes && op !in s.delivered && op in s.k.ops && s.k.ops[op].job.Payment?
      && M.Enabled(s.m, M.Arrive(h, s.k.ops[op].job.req, s.hashes[op]))
    case Reply(op) => K.Enabled(s.k, K.Unlock(op, K.NetworkError)) && Answered(s, op)
    case LoseReply(op) => K.Enabled(s.k, K.Unlock(op, K.NetworkError))
    case Status(op) => PollsStatus(s, op)
    case LoseStatus(op) => PollsStatus(s, op)
  }

  function Next(s: State, a: Action): State
    requires Enabled(s, a)
  {
    match a
    case AtMerchant(step) => s.(m := M.Next(s.m, step))
    case AtSdk(call) => s.(k := K.Next(s.k, call))
    case Send(op, hash) => s.(k := K.Next(s.k, K.Submit(op)), hashes := s.hashes[op := hash])
    case Deliver(op, h) =>
      s.(m := M.Next(s.m, M.Arrive(h, s.k.ops[op].job.req, s.hashes[op])), delivered := s.delivered[op := h])
    case Reply(op) =>
      s.(k := K.Next(s.k, K.Unlock(op, PaidReplyOf(s.m.handlers[s.delivered[op]].phase))))
    case LoseReply(op) => s.(k := K.Next(s.k, K.Unlock(op, K.NetworkError)))
    case Status(op) =>
      s.(k := K.Next(s.k, K.StatusReturns(op, StatusOf(s.m, s.k.ops[op].phase.snapshot.identity.reference))))
    case LoseStatus(op) => s.(k := K.Next(s.k, K.StatusReturns(op, None)))
  }

  ghost predicate Runs(s: State, actions: seq<Action>)
    decreases |actions|
  {
    actions == [] || (Enabled(s, actions[0]) && Runs(Next(s, actions[0]), actions[1..]))
  }

  ghost function Final(s: State, actions: seq<Action>): State
    requires Runs(s, actions)
    decreases |actions|
  {
    if actions == [] then s else Final(Next(s, actions[0]), actions[1..])
  }

  // ---- The invariant ----

  predicate IsFetch(k: K.State, op: nat) {
    op in k.ops && k.ops[op].job.Payment? && k.ops[op].job.kind.Fetch?
  }

  predicate InFlight(phase: K.Phase) {
    phase.Submitted? || phase.Unlocking?
  }

  /** A payload hash belongs to one sent fetch, and a fetch past sending has one. */
  ghost predicate HashesOk(s: State) {
    && (forall op :: op in s.hashes ==>
          IsFetch(s.k, op) && s.hashes[op] != "" && K.PastSend(s.k.ops[op].phase))
    && (forall o, p | o in s.hashes && p in s.hashes :: s.hashes[o] == s.hashes[p] ==> o == p)
    && (forall op :: IsFetch(s.k, op) && InFlight(s.k.ops[op].phase) ==> op in s.hashes)
  }

  /** A delivered payload is with the handler that received it. */
  ghost predicate Received(s: State) {
    forall op :: op in s.delivered ==>
      && op in s.hashes && op in s.k.ops && s.k.ops[op].job.Payment?
      && s.delivered[op] in s.m.handlers
      && s.m.handlers[s.delivered[op]].hash == s.hashes[op]
      && s.m.handlers[s.delivered[op]].accepted == s.k.ops[op].job.req
  }

  /** A handler with a fetch's payload got it by delivery. */
  ghost predicate OnlyDelivered(s: State) {
    forall op, h | op in s.hashes && h in s.m.handlers ::
      s.m.handlers[h].hash == s.hashes[op] ==> op in s.delivered && s.delivered[op] == h
  }

  /** A delivered payload is with exactly one handler. */
  ghost predicate DeliveryOk(s: State) {
    Received(s) && OnlyDelivered(s)
  }

  /** The merchant's row for the challenge stores this receipt. */
  ghost predicate MerchantStores(m: M.State, reference: Reference, receipt: Receipt) {
    StatusOf(m, reference) == Some(receipt)
  }

  ghost predicate PaidBy(m: M.State, reference: Reference, hash: string) {
    && reference.Challenge? && reference.id in m.rows && m.rows[reference.id].payloadHash == Some(hash)
  }

  /** The merchant refused the payload before any settle call, or the payload was never sent. */
  ghost predicate NeverSettled(s: State, op: nat)
    requires op in s.k.ops
  {
    && s.k.ops[op].phase.Finished?
    && (op !in s.hashes
        || (op in s.delivered && s.delivered[op] in s.m.handlers
            && s.m.handlers[s.delivered[op]].phase == M.Done(M.FacilitatorRejected)))
  }

  ghost predicate AttemptAgrees(s: State, op: nat, a: Attempt)
    requires op in s.k.ops
  {
    && (a.state in {SETTLED, UNLOCKED} ==>
          a.receipt.Some? && MerchantStores(s.m, a.identity.reference, a.receipt.value))
    && (a.state == UNLOCKED ==> op in s.hashes && PaidBy(s.m, a.identity.reference, s.hashes[op]))
    && (a.state == BLOCKED && a.reasonCode == Some(FACILITATOR_REJECTED) ==> NeverSettled(s, op))
  }

  ghost predicate AttemptsAgree(s: State) {
    forall op :: IsFetch(s.k, op) && op in s.k.db.attempts ==> AttemptAgrees(s, op, s.k.db.attempts[op])
  }

  ghost predicate UnlockAgrees(s: State, op: nat)
    requires IsFetch(s.k, op)
  {
    s.k.ops[op].phase.Unlocking? ==>
      && MerchantStores(s.m, K.ReferenceOf(s.k.ops[op].job.req), s.k.ops[op].phase.receipt)
      && op in s.hashes && PaidBy(s.m, K.ReferenceOf(s.k.ops[op].job.req), s.hashes[op])
  }

  ghost predicate UnlocksAgree(s: State) {
    forall op :: IsFetch(s.k, op) ==> UnlockAgrees(s, op)
  }

  ghost predicate Links(s: State) {
    HashesOk(s) && DeliveryOk(s) && AttemptsAgree(s) && UnlocksAgree(s)
  }

  ghost predicate Inv(s: State) {
    M.Inv(s.m) && K.Inv(s.k) && Links(s)
  }

  // ---- Merchant steps ----

  lemma RowsPersist(m: M.State, later: M.State, reference: Reference, receipt: Receipt, hash: string)
    requires M.RowsLater(m.rows, later.rows) && MerchantStores(m, reference, receipt)
    ensures MerchantStores(later, reference, receipt)
    ensures PaidBy(m, reference, hash) ==> PaidBy(later, reference, hash)
  {
  }

  /** Anything the merchant does on its own keeps the links. */
  lemma MerchantKeepsLinks(s: State, t: State)
    requires Links(s) && t.k == s.k && t.hashes == s.hashes
    requires M.RowsLater(s.m.rows, t.m.rows) && M.HandlersLater(s.m.handlers, t.m.handlers)
    requires forall op :: op in s.delivered ==> op in t.delivered && t.delivered[op] == s.delivered[op]
    requires DeliveryOk(t)
    ensures Links(t)
  {
    forall op | IsFetch(t.k, op) && op in t.k.db.attempts ensures AttemptAgrees(t, op, t.k.db.attempts[op]) {
      var a := s.k.db.attempts[op];
      assert AttemptAgrees(s, op, a);
      if a.state in {SETTLED, UNLOCKED} {
        RowsPersist(s.m, t.m, a.identity.reference, a.receipt.value, if op in s.hashes then s.hashes[op] else "");
      }
    }
    forall op | IsFetch(t.k, op) ensures UnlockAgrees(t, op) {
      assert UnlockAgrees(s, op);
      var phase := s.k.ops[op].phase;
      if phase.Unlocking? {
        RowsPersist(s.m, t.m, K.ReferenceOf(s.k.ops[op].job.req), phase.receipt, s.hashes[op]);
      }
    }
  }

  lemma MerchantStepKeepsInv(s: State, step: M.Action)
    requires Inv(s) && Enabled(s, AtMerchant(step))
    ensures Inv(Next(s, AtMerchant(step)))
  {
    M.StepKeepsInv(s.m, step);
    M.StepIsLater(s.m, step);
    var t := Next(s, AtMerchant(step));
    StrangersStayApart(s, t, step);
    MerchantKeepsLinks(s, t);
  }

  lemma StrangersStayApart(s: State, t: State, step: M.Action)
    requires DeliveryOk(s) && Enabled(s, AtMerchant(step)) && t == Next(s, AtMerchant(step))
    requires M.HandlersLater(s.m.handlers, t.m.handlers)
    ensures DeliveryOk(t)
  {
    NewHandlers(s.m, step);
    StillReceived(s, t);
    StillOnlyDelivered(s, t);
  }

  lemma StillReceived(s: State, t: State)
    requires Received(s) && t == s.(m := t.m) && M.HandlersLater(s.m.handlers, t.m.handlers)
    ensures Received(t)
  {
  }

  lemma StillOnlyDelivered(s: State, t: State)
    requires OnlyDelivered(s) && t == s.(m := t.m) && M.HandlersLater(s.m.handlers, t.m.handlers)
    requires forall h, op | h in t.m.handlers && h !in s.m.handlers && op in s.hashes ::
               t.m.handlers[h].hash != s.hashes[op]
    ensures OnlyDelivered(t)
  {
  }

  lemma NewHandlers(m: M.State, step: M.Action)
    requires M.Enabled(m, step)
    ensures forall h :: h in M.Next(m, step).handlers && h !in m.handlers ==>
      step.Arrive? && M.Next(m, step).handlers[h].hash == step.hash
  {
  }

  lemma ArriveAddsHandler(m: M.State, step: M.Action)
    requires step.Arrive? && M.Enabled(m, step)
    ensures
      var later := M.Next(m, step).handlers;
      && step.h !in m.handlers && step.h in later && later == m.handlers[step.h := later[step.h]]
      && later[step.h].hash == step.hash && later[step.h].accepted == step.accepted
  {
  }

  lemma DeliveryGrows(s: State, t: State, op: nat, h: nat)
    requires DeliveryOk(s) && HashesOk(s)
    requires op in s.hashes && op !in s.delivered && h !in s.m.handlers && h in t.m.handlers
    requires t.k == s.k && t.hashes == s.hashes && t.delivered == s.delivered[op := h]
    requires t.m.handlers == s.m.handlers[h := t.m.handlers[h]]
    requires t.m.handlers[h].hash == s.hashes[op] && t.m.handlers[h].accepted == s.k.ops[op].job.req
    ensures DeliveryOk(t)
  {
    assert Received(t);
    forall o, j | o in t.hashes && j in t.m.handlers && t.m.handlers[j].hash == t.hashes[o]
      ensures o in t.delivered && t.delivered[o] == j
    {
      if j == h {
        assert o == op;
      }
    }
  }

  lemma DeliverKeepsInv(s: State, op: nat, h: nat)
    requires Inv(s) && Enabled(s, Deliver(op, h))
    ensures Inv(Next(s, Deliver(op, h)))
  {
    var step := M.Arrive(h, s.k.ops[op].job.req, s.hashes[op]);
    M.StepKeepsInv(s.m, step);
    M.StepIsLater(s.m, step);
    var t := Next(s, Deliver(op, h));
    ArriveAddsHandler(s.m, step);
    DeliveryGrows(s, t, op, h);
    MerchantKeepsLinks(s, t);
  }

  // ---- SDK steps ----

  /** From k to l only operation id moved, and of the attempts only row id was written. */
  ghost predicate SdkFrame(k: K.State, l: K.State, id: nat, row: nat) {
    && (forall o :: o in k.ops ==> o in l.ops && l.ops[o].job == k.ops[o].job)
    && (forall o :: o in l.ops && o != id ==> o in k.ops && l.ops[o] == k.ops[o])
    && (id in k.ops ==>
          && (K.PastSend(k.ops[id].phase) ==> K.PastSend(l.ops[id].phase))
          && (k.ops[id].phase.Finished? ==> l.ops[id].phase.Finished?))
    && (forall j :: j in l.db.attempts && j != row ==> j in k.db.attempts && l.db.attempts[j] == k.db.attempts[j])
  }

  lemma SdkKeepsAgreement(s: State, t: State, id: nat, row: nat)
    requires DeliveryOk(s) && AttemptsAgree(s) && UnlocksAgree(s) && SdkFrame(s.k, t.k, id, row)
    requires IsFetch(t.k, id) ==> id in s.k.ops || id == row
    requires t.m == s.m && t.delivered == s.delivered && t.hashes == s.hashes
    requires IsFetch(t.k, row) && row in t.k.db.attempts ==> AttemptAgrees(t, row, t.k.db.attempts[row])
    requires IsFetch(t.k, id) ==> UnlockAgrees(t, id)
    ensures DeliveryOk(t) && AttemptsAgree(t) && UnlocksAgree(t)
  {
    forall op | IsFetch(t.k, op) && op in t.k.db.attempts ensures AttemptAgrees(t, op, t.k.db.attempts[op]) {
      if op != row {
        assert IsFetch(s.k, op) ==> AttemptAgrees(s, op, s.k.db.attempts[op]);
      }
    }
    forall op | IsFetch(t.k, op) ensures UnlockAgrees(t, op) {
      if op != id {
        assert UnlockAgrees(s, op);
      }
    }
  }

  /** The SDK moves while the merchant stands still: only the written row and the moved operation need proof. */
  lemma SdkKeepsLinks(s: State, t: State, id: nat, row: nat)
    requires Links(s) && SdkFrame(s.k, t.k, id, row)
    requires IsFetch(t.k, id) ==> id in s.k.ops || id == row
    requires t.m == s.m && t.delivered == s.delivered && t.hashes == s.hashes
    requires IsFetch(t.k, id) && InFlight(t.k.ops[id].phase) ==> id in s.hashes
    requires IsFetch(t.k, row) && row in t.k.db.attempts ==> AttemptAgrees(t, row, t.k.db.attempts[row])
    requires IsFetch(t.k, id) ==> UnlockAgrees(t, id)
    ensures Links(t)
  {
    SdkKeepsAgreement(s, t, id, row);
  }

  /** Every SDK write is one row; this one says nothing about a settlement. */
  predicate Calm(a: Attempt) {
    && a.state !in {SETTLED, UNLOCKED}
    && !(a.state == BLOCKED && a.reasonCode == Some(FACILITATOR_REJECTED))
  }

  lemma PutFrame(k: K.State, id: nat, a: Attempt, phase: K.Phase)
    requires id in k.ops && (K.PastSend(k.ops[id].phase) ==> K.PastSend(phase))
    requires k.ops[id].phase.Finished? ==> phase.Finished?
    ensures SdkFrame(k, K.Put(k, id, a, phase), id, a.identity.attemptId)
    ensures
      var l := K.Put(k, id, a, phase);
      var row := a.identity.attemptId;
      row in l.db.attempts ==>
        || (row in k.db.attempts && l.db == k.db)
        || (row in k.db.attempts && l.db.attempts[row] == a.(identity := k.db.attempts[row].identity))
        || (row !in k.db.attempts && l.db.attempts[row] == a)
  {
  }

  /** A payment's write of its own row. */
  lemma PaymentPutKeepsLinks(s: State, l: K.State, id: nat, a: Attempt, phase: K.Phase)
    requires Links(s) && id in s.k.ops && s.k.ops[id].job.Payment? && !s.k.ops[id].phase.Finished?
    requires a.identity.attemptId == id
    requires l.db == K.Put(s.k, id, a, phase).db && l.ops == K.Put(s.k, id, a, phase).ops
    requires K.PastSend(s.k.ops[id].phase) ==> K.PastSend(phase)
    requires !phase.Unlocking? && (IsFetch(s.k, id) && phase.Submitted? ==> id in s.hashes)
    requires IsFetch(s.k, id) ==>
      || Calm(a)
      || (a.state == BLOCKED && phase.Finished? && NeverSettled(s.(k := K.Move(s.k, id, K.Finished)), id))
    ensures Links(s.(k := l))
  {
    PutFrame(s.k, id, a, phase);
    var t := s.(k := l);
    if IsFetch(t.k, id) && id in t.k.db.attempts && id in s.k.db.attempts {
      assert AttemptAgrees(s, id, s.k.db.attempts[id]);
    }
    SdkKeepsLinks(s, t, id, id);
  }

  /** A move that writes nothing. */
  lemma MoveKeepsLinks(s: State, id: nat, phase: K.Phase)
    requires Links(s) && id in s.k.ops && !s.k.ops[id].phase.Finished?
    requires K.PastSend(s.k.ops[id].phase) ==> K.PastSend(phase)
    requires IsFetch(s.k, id) && InFlight(phase) ==> id in s.hashes
    requires IsFetch(s.k, id) ==> UnlockAgrees(s.(k := K.Move(s.k, id, phase)), id)
    ensures Links(s.(k := K.Move(s.k, id, phase)))
  {
    var t := s.(k := K.Move(s.k, id, phase));
    if IsFetch(t.k, id) && id in t.k.db.attempts {
      assert AttemptAgrees(s, id, s.k.db.attempts[id]);
    }
    SdkKeepsLinks(s, t, id, id);
  }

  lemma AllowanceKeepsLinks(s: State, record: Allowance)
    requires Links(s)
    ensures Links(s.(k := s.k.(db := PutAllowance(s.k.db, record).GetOr(s.k.db))))
  {
    var t := s.(k := s.k.(db := PutAllowance(s.k.db, record).GetOr(s.k.db)));
    assert t.k.db.attempts == s.k.db.attempts && t.k.ops == s.k.ops;
    forall op | IsFetch(t.k, op) && op in t.k.db.attempts ensures AttemptAgrees(t, op, t.k.db.attempts[op]) {
      assert AttemptAgrees(s, op, s.k.db.attempts[op]);
    }
    forall op | IsFetch(t.k, op) ensures UnlockAgrees(t, op) {
      assert UnlockAgrees(s, op);
    }
  }

  lemma StartKeepsLinks(s: State, id: nat, op: K.Op)
    requires Links(s) && K.RowsOwned(s.k) && id !in s.k.ops
    requires op.phase.Reserving? || op.phase.Finished? || op.phase.Polling?
    ensures Links(s.(k := s.k.(ops := s.k.ops[id := op])))
  {
    SdkKeepsLinks(s, s.(k := s.k.(ops := s.k.ops[id := op])), id, id);
  }

  lemma DecideKeepsLinks(s: State, id: nat, decision: K.PolicyDecision)
    requires Links(s) && id in s.k.ops && s.k.ops[id].job.Payment? && s.k.ops[id].phase.Deciding?
    requires decision.Refused? ==> decision.reason != FACILITATOR_REJECTED
    ensures Links(s.(k := K.AfterDecision(s.k, id, decision)))
  {
    var job := s.k.ops[id].job;
    var l := K.AfterDecision(s.k, id, decision);
    match decision
    case MalformedAmount => MoveKeepsLinks(s, id, K.Finished);
    case Refused(reason) => PaymentPutKeepsLinks(s, l, id, K.Blocked(K.Fresh(id, job), reason), K.Finished);
    case Allowed(_) =>
      PaymentPutKeepsLinks(s, l, id, K.Fresh(id, job).(state := VALIDATED, decision := ALLOW),
                           K.Signing(s.k.ops[id].phase.allowance));
  }

  lemma PreflightNeverBlamesFacilitator(req: Requirements, allowance: Allowance, ledger: int)
    ensures K.Preflight(req, allowance, ledger).Refused? ==>
      K.Preflight(req, allowance, ledger).reason != FACILITATOR_REJECTED
  {
  }

  /** A fetch that fails while signing has sent nothing. */
  lemma SignKeepsLinks(s: State, id: nat, outcome: K.SignOutcome)
    requires Links(s) && K.Enabled(s.k, K.Sign(id, outcome))
    ensures Links(s.(k := K.Next(s.k, K.Sign(id, outcome))))
  {
    var job := s.k.ops[id].job;
    var l := K.Next(s.k, K.Sign(id, outcome));
    assert IsFetch(s.k, id) ==> id !in s.hashes;
    match outcome
    case NoSigner =>
      PaymentPutKeepsLinks(s, l, id, K.Blocked(K.Fresh(id, job), SIGNER_NOT_AUTHORIZED), K.Finished);
    case BuildFailed(reason) => PaymentPutKeepsLinks(s, l, id, K.Blocked(K.Fresh(id, job), reason), K.Finished);
    case Built =>
      PaymentPutKeepsLinks(s, l, id, K.Fresh(id, job).(state := SIGNED, decision := ALLOW),
                           K.Signed(s.k.ops[id].phase.allowance));
  }

  /** What pay does with the facilitator is outside the links, which speak of fetches. */
  lemma PayKeepsLinks(s: State, call: K.Action)
    requires Links(s) && K.Enabled(s.k, call) && (call.VerifyReturns? || call.SettleReturns?)
    ensures Links(s.(k := K.Next(s.k, call)))
  {
    var id := call.id;
    var job := s.k.ops[id].job;
    var l := K.Next(s.k, call);
    if call.VerifyReturns? {
      if call.isValid {
        PaymentPutKeepsLinks(s, l, id, K.Fresh(id, job).(state := SUBMITTED), K.Submitted(s.k.ops[id].phase.allowance));
      } else {
        PaymentPutKeepsLinks(s, l, id, K.Blocked(K.Fresh(id, job), FACILITATOR_REJECTED), K.Finished);
      }
    } else {
      var receipt := ClientReceipt(call.settle, job.req);
      if l == K.Put(s.k, id, K.Unknown(K.Fresh(id, job)), K.Finished) {
        PaymentPutKeepsLinks(s, l, id, K.Unknown(K.Fresh(id, job)), K.Finished);
      } else {
        PaymentPutKeepsLinks(s, l, id, K.WithEvidence(K.Fresh(id, job), SETTLED, receipt.value), K.Finished);
      }
    }
  }

  /** Writing a settled row, backed by the merchant's, over an attempt's own row. */
  lemma SettledPutKeepsLinks(s: State, id: nat, row: nat, a: Attempt)
    requires Links(s) && id in s.k.ops && !s.k.ops[id].phase.Finished?
    requires a.identity.attemptId == row && row in s.k.db.attempts && s.k.db.attempts[row].identity == a.identity
    requires IsFetch(s.k, row) ==> AttemptAgrees(s, row, a)
    requires a.state != BLOCKED
    ensures Links(s.(k := K.Put(s.k, id, a, K.Finished)))
  {
    var t := s.(k := K.Put(s.k, id, a, K.Finished));
    if PutAttempt(s.k.db, a).None? {
      MoveKeepsLinks(s, id, K.Finished);
    } else {
      assert t.k.db.attempts == s.k.db.attempts[row := a];
      assert SdkFrame(s.k, t.k, id, row);
      SdkKeepsLinks(s, t, id, row);
    }
  }

  /** The unlocked row repeats the receipt the merchant served. */
  lemma ReadBodyKeepsLinks(s: State, id: nat)
    requires Links(s) && K.Enabled(s.k, K.ReadBody(id))
    requires id in s.k.db.attempts && s.k.db.attempts[id].identity == K.IdentityOf(id, s.k.ops[id].job)
    ensures Links(s.(k := K.Next(s.k, K.ReadBody(id))))
  {
    var op := s.k.ops[id];
    var settled := K.WithEvidence(K.Fresh(id, op.job), SETTLED, op.phase.receipt);
    var a := if op.phase.ok then settled.(state := UNLOCKED)
             else settled.(decision := FAULT, reasonCode := Some(RESOURCE_UNLOCK_FAILED));
    assert UnlockAgrees(s, id);
    SettledPutKeepsLinks(s, id, id, a);
  }

  /** A reconciled row repeats the receipt the merchant stores. */
  lemma StatusKeepsLinks(s: State, id: nat, status: Option<Receipt>)
    requires Links(s) && K.Enabled(s.k, K.StatusReturns(id, status))
    requires K.OpOk(s.k.db, id, s.k.ops[id]) && KeysMatch(s.k.db)
    requires status.None? || status == StatusOf(s.m, s.k.ops[id].phase.snapshot.identity.reference)
    ensures Links(s.(k := K.Next(s.k, K.StatusReturns(id, status))))
  {
    if status.Some? && status.value.success {
      SettledPutKeepsLinks(s, id, s.k.ops[id].job.attemptId,
                           K.WithEvidence(s.k.ops[id].phase.snapshot, SETTLED, status.value));
    } else {
      MoveKeepsLinks(s, id, K.Finished);
    }
  }

  /** A fresh hash for a fetch that is just being sent. */
  lemma SentHash(s: State, op: nat, hash: string)
    requires Links(s) && op !in s.hashes && IsFetch(s.k, op) && !s.k.ops[op].phase.Finished?
    requires forall h | h in s.m.handlers :: s.m.handlers[h].hash != hash
    ensures DeliveryOk(s.(hashes := s.hashes[op := hash]))
    ensures AttemptsAgree(s.(hashes := s.hashes[op := hash]))
    ensures UnlocksAgree(s.(hashes := s.hashes[op := hash]))
  {
  }

  lemma SentHashesOk(s: State, t: State, op: nat, hash: string)
    requires HashesOk(s) && IsFetch(s.k, op) && hash != "" && forall o | o in s.hashes :: s.hashes[o] != hash
    requires t.hashes == s.hashes[op := hash]
    requires op in t.k.ops && K.PastSend(t.k.ops[op].phase)
    requires t.k.ops == s.k.ops[op := s.k.ops[op].(phase := t.k.ops[op].phase)]
    ensures HashesOk(t)
  {
  }

  lemma SendKeepsLinks(s: State, op: nat, hash: string)
    requires Links(s) && Enabled(s, Send(op, hash))
    ensures Links(Next(s, Send(op, hash)))
  {
    var a := K.Fresh(op, s.k.ops[op].job).(state := SUBMITTED);
    var phase := K.Submitted(s.k.ops[op].phase.allowance);
    var t := Next(s, Send(op, hash));
    SentHash(s, op, hash);
    SentHashesOk(s, t, op, hash);
    SentRow(s.(hashes := s.hashes[op := hash]), t, op, a, phase);
  }

  lemma SentRow(u: State, t: State, op: nat, a: Attempt, phase: K.Phase)
    requires DeliveryOk(u) && AttemptsAgree(u) && UnlocksAgree(u) && IsFetch(u.k, op)
    requires a.identity.attemptId == op && Calm(a) && phase.Submitted? && u.k.ops[op].phase.Signed?
    requires t.m == u.m && t.delivered == u.delivered && t.hashes == u.hashes
    requires t.k.db == K.Put(u.k, op, a, phase).db && t.k.ops == K.Put(u.k, op, a, phase).ops
    requires HashesOk(t)
    ensures Links(t)
  {
    PutFrame(u.k, op, a, phase);
    if op in u.k.db.attempts {
      assert AttemptAgrees(u, op, u.k.db.attempts[op]);
    }
    SdkKeepsAgreement(u, t, op, op);
  }

  /** The SDK reads the merchant's answer, or loses it. */
  lemma UnlockKeepsLinks(s: State, op: nat, paid: K.PaidReply)
    requires Links(s) && K.Enabled(s.k, K.Unlock(op, paid))
    requires paid == K.NoReceipt(K.Rejected) ==>
      op in s.delivered && s.delivered[op] in s.m.handlers
      && s.m.handlers[s.delivered[op]].phase == M.Done(M.FacilitatorRejected)
    requires paid.WithReceipt? ==>
      && MerchantStores(s.m, K.ReferenceOf(s.k.ops[op].job.req), paid.receipt)
      && op in s.hashes && PaidBy(s.m, K.ReferenceOf(s.k.ops[op].job.req), s.hashes[op])
    ensures Links(s.(k := K.Next(s.k, K.Unlock(op, paid))))
  {
    var job := s.k.ops[op].job;
    var l := K.AfterUnlock(s.k, op, paid);
    match paid
    case NetworkError => PaymentPutKeepsLinks(s, l, op, K.Unknown(K.Fresh(op, job)), K.Finished);
    case NoReceipt(Rejected) =>
      PaymentPutKeepsLinks(s, l, op, K.Blocked(K.Fresh(op, job), FACILITATOR_REJECTED), K.Finished);
    case NoReceipt(SettleFailed) => PaymentPutKeepsLinks(s, l, op, K.Unknown(K.Fresh(op, job)), K.Finished);
    case NoReceipt(OtherError) =>
      PaymentPutKeepsLinks(s, l, op, K.Blocked(K.Fresh(op, job), RESOURCE_UNLOCK_FAILED), K.Finished);
    case WithReceipt(receipt, ok) =>
      if !K.Decodable(receipt) {
        MoveKeepsLinks(s, op, K.Finished);
      } else if ReceiptMatches(receipt, job.req, s.k.ops[op].phase.allowance.identity.treasuryContract) {
        MoveKeepsLinks(s, op, K.Unlocking(receipt, ok));
      } else {
        PaymentPutKeepsLinks(s, l, op, K.Blocked(K.Fresh(op, job), RECEIPT_MISMATCH), K.Finished);
      }
  }

  /** A 200 answers the payload's own challenge, whose row stores the receipt under the payload's hash. */
  lemma AnswerIsStored(s: State, op: nat)
    requires DeliveryOk(s) && M.HandlersOk(s.m) && M.RowsOk(s.m) && Answered(s, op)
    requires PaidReplyOf(s.m.handlers[s.delivered[op]].phase).WithReceipt?
    ensures
      var receipt := PaidReplyOf(s.m.handlers[s.delivered[op]].phase).receipt;
      var reference := K.ReferenceOf(s.k.ops[op].job.req);
      && MerchantStores(s.m, reference, receipt) && op in s.hashes && PaidBy(s.m, reference, s.hashes[op])
  {
  }

  lemma ReplyKeepsInv(s: State, op: nat)
    requires Inv(s) && Enabled(s, Reply(op))
    ensures Inv(Next(s, Reply(op)))
  {
    var paid := PaidReplyOf(s.m.handlers[s.delivered[op]].phase);
    K.StepKeepsInv(s.k, K.Unlock(op, paid));
    if paid.WithReceipt? {
      AnswerIsStored(s, op);
    }
    UnlockKeepsLinks(s, op, paid);
  }

  lemma RefreshKeepsLinks(s: State, id: nat, chain: K.ChainReply)
    requires Links(s) && K.Enabled(s.k, K.Refresh(id, chain))
    ensures Links(s.(k := K.Next(s.k, K.Refresh(id, chain))))
  {
    var updated := K.Refreshed(s.k.ops[id].phase.allowance, chain);
    AllowanceKeepsLinks(s, updated);
    MoveKeepsLinks(s.(k := s.k.(db := PutAllowance(s.k.db, updated).GetOr(s.k.db))), id, K.Deciding(updated));
  }

  lemma PreflightKeepsLinks(s: State, id: nat, ledger: int)
    requires Links(s) && K.Enabled(s.k, K.Decide(id, ledger))
    ensures Links(s.(k := K.Next(s.k, K.Decide(id, ledger))))
  {
    var op := s.k.ops[id];
    PreflightNeverBlamesFacilitator(op.job.req, op.phase.allowance, ledger);
    DecideKeepsLinks(s, id, K.Preflight(op.job.req, op.phase.allowance, ledger));
  }

  lemma InsertKeepsLinks(s: State, id: nat)
    requires Links(s) && K.Enabled(s.k, K.Insert(id))
    ensures Links(s.(k := K.Next(s.k, K.Insert(id))))
  {
    PaymentPutKeepsLinks(s, K.Next(s.k, K.Insert(id)), id, K.Fresh(id, s.k.ops[id].job), K.Reading);
  }

  lemma SdkStepKeepsLinks(s: State, call: K.Action)
    requires Links(s) && Enabled(s, AtSdk(call)) && K.RowsOwned(s.k)
    requires call.ReadBody? ==> K.OpOk(s.k.db, call.id, s.k.ops[call.id])
    ensures Links(s.(k := K.Next(s.k, call)))
  {
    match call
    case StartPayment(_, _, _, _, _, _) => QuietCallKeepsLinks(s, call);
    case StartReconcile(_, _) => QuietCallKeepsLinks(s, call);
    case ReadAllowance(_) => QuietCallKeepsLinks(s, call);
    case Abandon(_) => QuietCallKeepsLinks(s, call);
    case Insert(id) => InsertKeepsLinks(s, id);
    case Refresh(id, chain) => RefreshKeepsLinks(s, id, chain);
    case Decide(id, ledger) => PreflightKeepsLinks(s, id, ledger);
    case Sign(id, outcome) => SignKeepsLinks(s, id, outcome);
    case VerifyReturns(_, _) => PayKeepsLinks(s, call);
    case SettleReturns(_, _) => PayKeepsLinks(s, call);
    case ReadBody(id) => ReadBodyKeepsLinks(s, id);
    case WriteAllowance(record) => AllowanceKeepsLinks(s, record);
  }

  /** The SDK steps that write nothing. */
  lemma QuietCallKeepsLinks(s: State, call: K.Action)
    requires Links(s) && K.RowsOwned(s.k) && K.Enabled(s.k, call)
    requires call.StartPayment? || call.StartReconcile? || call.ReadAllowance? || call.Abandon?
    ensures Links(s.(k := K.Next(s.k, call)))
  {
    if call.StartPayment? || call.StartReconcile? {
      StartKeepsLinks(s, call.id, K.Next(s.k, call).ops[call.id]);
    } else {
      MoveKeepsLinks(s, call.id, K.Next(s.k, call).ops[call.id].phase);
    }
  }

  lemma StepKeepsInv(s: State, a: Action)
    requires Inv(s) && Enabled(s, a)
    ensures Inv(Next(s, a))
  {
    match a
    case AtMerchant(step) => MerchantStepKeepsInv(s, step);
    case AtSdk(call) =>
      K.StepKeepsInv(s.k, call);
      assert call.ReadBody? ==> K.OpOk(s.k.db, call.id, s.k.ops[call.id]);
      SdkStepKeepsLinks(s, call);
    case Send(op, hash) =>
      K.StepKeepsInv(s.k, K.Submit(op));
      SendKeepsLinks(s, op, hash);
    case Deliver(op, h) => DeliverKeepsInv(s, op, h);
    case Reply(op) => ReplyKeepsInv(s, op);
    case LoseReply(op) =>
      K.StepKeepsInv(s.k, K.Unlock(op, K.NetworkError));
      UnlockKeepsLinks(s, op, K.NetworkError);
    case Status(op) => PolledKeepsInv(s, op, StatusOf(s.m, s.k.ops[op].phase.snapshot.identity.reference));
    case LoseStatus(op) => PolledKeepsInv(s, op, None);
  }

  lemma PolledKeepsInv(s: State, op: nat, status: Option<Receipt>)
    requires Inv(s) && PollsStatus(s, op)
    requires status.None? || status == StatusOf(s.m, s.k.ops[op].phase.snapshot.identity.reference)
    ensures Inv(s.(k := K.Next(s.k, K.StatusReturns(op, status))))
  {
    K.StepKeepsInv(s.k, K.StatusReturns(op, status));
    assert K.OpOk(s.k.db, op, s.k.ops[op]);
    StatusKeepsLinks(s, op, status);
  }

  lemma {:induction false} RunKeepsInv(s: State, actions: seq<Action>)
    requires Inv(s) && Runs(s, actions)
    ensures Inv(Final(s, actions))
    decreases |actions|
  {
    if actions != [] {
      StepKeepsInv(s, actions[0]);
      RunKeepsInv(Next(s, actions[0]), actions[1..]);
    }
  }

  // ---- What every composed run guarantees ----

  /**
    A fetch attempt that stands settled or unlocked holds the receipt the merchant stores for its challenge. If it
    stands unlocked, the merchant called settle for that challenge with this attempt's payload and no other.
   */
  ghost predicate EndsAgreeOn(s: State, op: nat)
    requires op in s.k.db.attempts
  {
    var a := s.k.db.attempts[op];
    && (a.state in {SETTLED, UNLOCKED} ==>
          && a.identity.reference.Challenge? && a.identity.reference.id in s.m.rows
          && a.receipt.Some? && s.m.rows[a.identity.reference.id].receipt == a.receipt)
    && (a.state == UNLOCKED ==>
          && op in s.hashes
          && (exists c :: c in s.m.calls && c.id == a.identity.reference.id && c.hash == s.hashes[op])
          && (forall c :: c in s.m.calls && c.id == a.identity.reference.id ==> c.hash == s.hashes[op]))
  }

  lemma EndsAgree(actions: seq<Action>, op: nat)
    requires Runs(INIT, actions)
    requires IsFetch(Final(INIT, actions).k, op) && op in Final(INIT, actions).k.db.attempts
    ensures EndsAgreeOn(Final(INIT, actions), op)
  {
    RunKeepsInv(INIT, actions);
    var s := Final(INIT, actions);
    assert AttemptAgrees(s, op, s.k.db.attempts[op]) && K.RowOk(s.k.db, s.k.db.attempts[op]);
    AgreementMeans(s, op);
  }

  lemma AgreementMeans(s: State, op: nat)
    requires M.RowsOk(s.m) && M.CallsOk(s.m)
    requires op in s.k.ops && op in s.k.db.attempts && AttemptAgrees(s, op, s.k.db.attempts[op])
    requires K.Evidence(s.k.db.attempts[op])
    ensures EndsAgreeOn(s, op)
  {
  }

  /** A fetch attempt blocked because the facilitator rejected it had no settle call for its payload. */
  lemma RejectedWasNotSettled(actions: seq<Action>, op: nat, c: M.SettleCall)
    requires Runs(INIT, actions)
    requires
      var s := Final(INIT, actions);
      && IsFetch(s.k, op) && op in s.k.db.attempts
      && s.k.db.attempts[op].state == BLOCKED && s.k.db.attempts[op].reasonCode == Some(FACILITATOR_REJECTED)
      && op in s.hashes && c in s.m.calls
    ensures c.hash != Final(INIT, actions).hashes[op]
  {
    RunKeepsInv(INIT, actions);
    var s := Final(INIT, actions);
    assert AttemptAgrees(s, op, s.k.db.attempts[op]);
    NeverSettledHasNoCall(s, op, c);
  }

  lemma NeverSettledHasNoCall(s: State, op: nat, c: M.SettleCall)
    requires DeliveryOk(s) && M.CallsOk(s.m) && op in s.k.ops && NeverSettled(s, op)
    requires op in s.hashes && c in s.m.calls
    ensures c.hash != s.hashes[op]
  {
  }
}
