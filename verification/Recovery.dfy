/**
  SDK and merchant together: a settled payment unlocks its resource, and one whose reply is lost is recovered from
  the merchant's stored receipt.
 */
module Recovery {
  import opened Wrappers
  import opened X402
  import opened EvidenceStore
  import opened Agreement
  import M = MerchantProtocol
  import K = SdkProtocol
  import MO = MerchantOutcomes
  import KO = SdkOutcomes

  lemma RunsOne(s: State, a: Action, rest: seq<Action>)
    requires Enabled(s, a) && Runs(Next(s, a), rest)
    ensures Runs(s, [a] + rest) && Final(s, [a] + rest) == Final(Next(s, a), rest)
  {
    assert ([a] + rest)[1..] == rest;
  }

  lemma RunsTwo(s: State, a: Action, b: Action)
    requires Enabled(s, a) && Enabled(Next(s, a), b)
    ensures Runs(s, [a, b]) && Final(s, [a, b]) == Next(Next(s, a), b)
  {
    RunsOne(Next(s, a), b, []);
    RunsOne(s, a, [b]);
    assert [a] + [b] == [a, b];
  }

  lemma RunsThree(s: State, a: Action, b: Action, c: Action)
    requires Enabled(s, a) && Enabled(Next(s, a), b) && Enabled(Next(Next(s, a), b), c)
    ensures Runs(s, [a, b, c]) && Final(s, [a, b, c]) == Next(Next(Next(s, a), b), c)
  {
    RunsTwo(Next(s, a), b, c);
    RunsOne(s, a, [b, c]);
    assert [a] + [b, c] == [a, b, c];
  }

  lemma {:induction false} RunsOn(s: State, first: seq<Action>, rest: seq<Action>)
    requires Runs(s, first) && Runs(Final(s, first), rest)
    ensures Runs(s, first + rest) && Final(s, first + rest) == Final(Final(s, first), rest)
    decreases |first|
  {
    if first == [] {
      assert first + rest == rest;
    } else {
      RunsOn(Next(s, first[0]), first[1..], rest);
      RunsOne(s, first[0], first[1..] + rest);
      assert [first[0]] + (first[1..] + rest) == first + rest;
    }
  }

  /** A sent fetch for this challenge, its paid reply not read yet. */
  predicate AwaitsReply(s: State, op: nat, id: string) {
    IsFetch(s.k, op) && s.k.ops[op].phase.Submitted? && s.k.ops[op].job.req.challengeId == Some(id)
  }

  /** The attempt stands with this receipt as its evidence, and the SDK's tables are otherwise the same. */
  predicate Evidenced(before: K.State, after: K.State, op: nat, state: AttemptState, receipt: Receipt) {
    && op in before.db.attempts
    && after.db == before.db.(attempts :=
         before.db.attempts[op := KO.Proven(before, op, state, ALLOW, None, receipt)])
  }

  function RecoverySteps(op: nat, r: nat): seq<Action> {
    [LoseReply(op), AtSdk(K.StartReconcile(r, op)), Status(r)]
  }

  /** Losing the reply leaves the attempt unknown, where a reconciliation looks for it. */
  lemma LostIsPolled(k: K.State, op: nat, r: nat)
    requires K.Inv(k) && K.Enabled(k, K.Unlock(op, K.NetworkError)) && r !in k.ops
    ensures op in k.db.attempts
    ensures
      var lost := K.Next(k, K.Unlock(op, K.NetworkError));
      var row := KO.Standing(k, op, UNKNOWN, PENDING, Some(SETTLEMENT_UNKNOWN));
      && lost.db == k.db.(attempts := k.db.attempts[op := row])
      && K.Inv(lost) && K.Enabled(lost, K.StartReconcile(r, op))
      && var polling := K.Next(lost, K.StartReconcile(r, op));
         && K.Inv(polling) && polling.db == lost.db
         && r in polling.ops && polling.ops[r] == K.Op(K.Reconcile(op), K.Polling(row))
  {
    KO.PaidReplyOutcome(k, op, K.NetworkError);
    K.StepKeepsInv(k, K.Unlock(op, K.NetworkError));
    var lost := K.Next(k, K.Unlock(op, K.NetworkError));
    KO.ReconcileStartOutcome(lost, r, op);
    K.StepKeepsInv(lost, K.StartReconcile(r, op));
  }

  lemma OwnRowDoesNotCount(k: K.State, l: K.State, op: nat, transaction: string)
    requires op in l.db.attempts && l.db.attempts == k.db.attempts[op := l.db.attempts[op]]
    ensures KO.Unrecorded(k, op, transaction) <==> KO.Unrecorded(l, op, transaction)
  {
    assert forall j :: j != op ==> (j in k.db.attempts <==> j in l.db.attempts);
  }

  /** Settling an attempt over its unknown row is settling it over the row before. */
  lemma SettledOver(k: K.State, l: K.State, after: K.State, op: nat, receipt: Receipt)
    requires op in k.db.attempts && op in l.db.attempts
    requires l.db == k.db.(attempts := k.db.attempts[op := l.db.attempts[op]])
    requires l.db.attempts[op].identity == k.db.attempts[op].identity
    ensures after.db == l.db.(attempts := l.db.attempts[op := KO.Proven(l, op, SETTLED, ALLOW, None, receipt)]) ==>
      Evidenced(k, after, op, SETTLED, receipt)
  {
  }

  /** A successful status of an unknown attempt settles it, unless another attempt carries the transaction. */
  lemma PolledIsSettled(k: K.State, polling: K.State, op: nat, r: nat, receipt: Receipt)
    requires op in k.db.attempts && K.Inv(polling) && receipt.success
    requires
      var row := KO.Standing(k, op, UNKNOWN, PENDING, Some(SETTLEMENT_UNKNOWN));
      && polling.db == k.db.(attempts := k.db.attempts[op := row])
      && r in polling.ops && polling.ops[r] == K.Op(K.Reconcile(op), K.Polling(row))
    ensures
      var after := K.Next(polling, K.StatusReturns(r, Some(receipt)));
      && op in after.db.attempts
      && (KO.Unrecorded(k, op, receipt.transaction) ==> Evidenced(k, after, op, SETTLED, receipt))
      && (!KO.Unrecorded(k, op, receipt.transaction) ==> after.db.attempts[op].state == UNKNOWN)
  {
    OwnRowDoesNotCount(k, polling, op, receipt.transaction);
    KO.StatusOutcome(polling, r, Some(receipt));
    SettledOver(k, polling, K.Next(polling, K.StatusReturns(r, Some(receipt))), op, receipt);
  }

  /**
    The reply of a payment that the merchant settled is lost. Reconciling the attempt settles it with the receipt
    the merchant stores, unless another attempt already carries that transaction: then it stays unknown.
   */
  lemma LostReplyIsRecovered(s: State, op: nat, r: nat, id: string)
    requires Inv(s) && AwaitsReply(s, op, id) && r !in s.k.ops
    requires id in s.m.rows && s.m.rows[id].receipt.Some?
    ensures Runs(s, RecoverySteps(op, r))
    ensures
      var receipt := s.m.rows[id].receipt.value;
      var t := Final(s, RecoverySteps(op, r));
      && t.m == s.m && op in t.k.db.attempts
      && (KO.Unrecorded(s.k, op, receipt.transaction) ==> Evidenced(s.k, t.k, op, SETTLED, receipt))
      && (!KO.Unrecorded(s.k, op, receipt.transaction) ==> t.k.db.attempts[op].state == UNKNOWN)
  {
    var receipt := s.m.rows[id].receipt.value;
    assert M.RowOk(s.m, id);
    KO.InsertedIsPlaced(s.k, op);
    LostIsPolled(s.k, op, r);
    var lost := Next(s, LoseReply(op));
    var polling := Next(lost, AtSdk(K.StartReconcile(r, op)));
    PolledIsSettled(s.k, polling.k, op, r, receipt);
    PolledAtMerchant(polling, r, id, receipt);
    RunsThree(s, LoseReply(op), AtSdk(K.StartReconcile(r, op)), Status(r));
  }

  lemma PolledAtMerchant(s: State, r: nat, id: string, receipt: Receipt)
    requires PollsStatus(s, r) && s.k.ops[r].phase.snapshot.identity.reference == Challenge(id)
    requires id in s.m.rows && s.m.rows[id].receipt == Some(receipt)
    ensures Enabled(s, Status(r))
    ensures Next(s, Status(r)) == s.(k := K.Next(s.k, K.StatusReturns(r, Some(receipt))))
  {
  }

  /** The fetch's payload is with a handler of the merchant that waits for the facilitator to settle it. */
  predicate AwaitsSettlement(s: State, op: nat, id: string, h: nat) {
    && AwaitsReply(s, op, id) && op in s.delivered && s.delivered[op] == h
    && h in s.m.handlers && s.m.handlers[h].phase.Settling?
  }

  /** The receipt of a settlement on the terms the fetch was asked to pay. */
  function ReceiptFor(s: State, op: nat, id: string, h: nat, transaction: string): Receipt
    requires AwaitsSettlement(s, op, id, h)
  {
    var req := s.k.ops[op].job.req;
    Receipt(true, transaction, req.network, s.m.handlers[h].phase.payer, req.amount, req.asset, req.payTo, id)
  }

  function StoringSteps(h: nat, payer: string, transaction: string): seq<Action> {
    [AtMerchant(M.SettleReturns(h, SettleReply(true, transaction, payer))), AtMerchant(M.StoreReceipt(h))]
  }

  lemma SettledAtMerchant(m: M.State, h: nat, reply: SettleReply)
    requires M.Inv(m) && M.Enabled(m, M.SettleReturns(h, reply)) && MO.SettledFor(reply, m.handlers[h].phase.payer)
    ensures
      var hd := m.handlers[h];
      var receipt := MO.ReceiptOf(reply, hd.accepted, hd.id, hd.phase.payer);
      var t := M.Next(m, M.SettleReturns(h, reply));
      && hd.accepted.challengeId == Some(hd.id)
      && M.Enabled(t, M.StoreReceipt(h))
      && var u := M.Next(t, M.StoreReceipt(h));
         && hd.id in u.rows && u.rows[hd.id].receipt == Some(receipt)
         && h in u.handlers && u.handlers[h].phase == M.Unlocking(receipt)
  {
    MO.HandlerIsBacked(m, h);
    MO.SettlementAnswer(m, h, reply);
  }

  /** The merchant has stored the receipt and its handler is about to serve it; the SDK has not moved. */
  ghost predicate StoredFor(s: State, t: State, id: string, h: nat, receipt: Receipt) {
    && Inv(t) && t.k == s.k && t.hashes == s.hashes && t.delivered == s.delivered
    && id in t.m.rows && t.m.rows[id].receipt == Some(receipt)
    && h in t.m.handlers && t.m.handlers[h].phase == M.Unlocking(receipt)
  }

  lemma MerchantStoresIt(s: State, op: nat, id: string, h: nat, transaction: string)
    requires Inv(s) && AwaitsSettlement(s, op, id, h) && IsHex64(transaction)
    ensures Runs(s, StoringSteps(h, s.m.handlers[h].phase.payer, transaction))
    ensures StoredFor(s, Final(s, StoringSteps(h, s.m.handlers[h].phase.payer, transaction)), id, h,
                      ReceiptFor(s, op, id, h, transaction))
  {
    var payer := s.m.handlers[h].phase.payer;
    var reply := SettleReply(true, transaction, payer);
    assert s.m.handlers[h].accepted == s.k.ops[op].job.req;
    SettledAtMerchant(s.m, h, reply);
    var a := AtMerchant(M.SettleReturns(h, reply));
    var b := AtMerchant(M.StoreReceipt(h));
    StepKeepsInv(s, a);
    StepKeepsInv(Next(s, a), b);
    RunsTwo(s, a, b);
  }

  /** End to end: whatever the merchant settles for a fetch that never hears of it, reconciliation recovers. */
  lemma SettledButUnheardIsRecovered(s: State, op: nat, id: string, h: nat, transaction: string, r: nat)
    requires Inv(s) && AwaitsSettlement(s, op, id, h) && IsHex64(transaction) && r !in s.k.ops
    requires KO.Unrecorded(s.k, op, transaction)
    ensures
      var run := StoringSteps(h, s.m.handlers[h].phase.payer, transaction) + RecoverySteps(op, r);
      && Runs(s, run)
      && Evidenced(s.k, Final(s, run).k, op, SETTLED, ReceiptFor(s, op, id, h, transaction))
  {
    var first := StoringSteps(h, s.m.handlers[h].phase.payer, transaction);
    MerchantStoresIt(s, op, id, h, transaction);
    LostReplyIsRecovered(Final(s, first), op, r, id);
    RunsOn(s, first, RecoverySteps(op, r));
  }

  function HearingSteps(op: nat, h: nat): seq<Action> {
    [AtMerchant(M.LedgerRead(h)), Reply(op), AtSdk(K.ReadBody(op))]
  }

  /** A receipt of the payment's own, then the body of a success. */
  lemma HeardIsUnlocked(k: K.State, op: nat, receipt: Receipt)
    requires K.Inv(k) && K.Enabled(k, K.Unlock(op, K.NetworkError))
    requires k.ops[op].job.allowanceId in k.db.allowances
    requires KO.IsFor(receipt, k.ops[op].job.req, KO.Treasury(k, op)) && KO.Legible(receipt)
    requires KO.Unrecorded(k, op, receipt.transaction)
    ensures
      var read := K.Next(k, K.Unlock(op, K.WithReceipt(receipt, true)));
      && K.Enabled(read, K.ReadBody(op)) && Evidenced(k, K.Next(read, K.ReadBody(op)), op, UNLOCKED, receipt)
  {
    KO.PaidReplyOutcome(k, op, K.WithReceipt(receipt, true));
    K.StepKeepsInv(k, K.Unlock(op, K.WithReceipt(receipt, true)));
    KO.BodyOutcome(K.Next(k, K.Unlock(op, K.WithReceipt(receipt, true))), op);
  }

  lemma ServedAnswers(s: State, op: nat, h: nat, receipt: Receipt)
    requires K.Enabled(s.k, K.Unlock(op, K.NetworkError)) && op in s.delivered && s.delivered[op] == h
    requires h in s.m.handlers && s.m.handlers[h].phase == M.Unlocking(receipt)
    ensures
      var a := AtMerchant(M.LedgerRead(h));
      && Enabled(s, a) && Next(s, a).k == s.k && Next(s, a).m.rows == s.m.rows && Enabled(Next(s, a), Reply(op))
      && Next(Next(s, a), Reply(op)) ==
           Next(s, a).(k := K.Next(s.k, K.Unlock(op, K.WithReceipt(receipt, true))))
  {
  }

  /** The merchant's 200 reaches the fetch, which unlocks with exactly the stored receipt. */
  lemma ServedFetchUnlocks(s: State, op: nat, id: string, h: nat, receipt: Receipt)
    requires Inv(s) && AwaitsReply(s, op, id) && op in s.delivered && s.delivered[op] == h
    requires h in s.m.handlers && s.m.handlers[h].phase == M.Unlocking(receipt)
    requires s.k.ops[op].job.allowanceId in s.k.db.allowances
    requires KO.IsFor(receipt, s.k.ops[op].job.req, KO.Treasury(s.k, op)) && KO.Legible(receipt)
    requires KO.Unrecorded(s.k, op, receipt.transaction)
    ensures Runs(s, HearingSteps(op, h)) && Evidenced(s.k, Final(s, HearingSteps(op, h)).k, op, UNLOCKED, receipt)
    ensures Final(s, HearingSteps(op, h)).m.rows == s.m.rows
  {
    HeardIsUnlocked(s.k, op, receipt);
    ServedAnswers(s, op, h, receipt);
    RunsThree(s, AtMerchant(M.LedgerRead(h)), Reply(op), AtSdk(K.ReadBody(op)));
  }

  /** End to end: a fetch whose payment is settled by its own treasury unlocks with the receipt the merchant stores. */
  lemma SettledFetchUnlocks(s: State, op: nat, id: string, h: nat, transaction: string)
    requires Inv(s) && AwaitsSettlement(s, op, id, h) && IsHex64(transaction)
    requires s.k.ops[op].job.allowanceId in s.k.db.allowances
    requires s.m.handlers[h].phase.payer == KO.Treasury(s.k, op) && KO.Unrecorded(s.k, op, transaction)
    ensures
      var receipt := ReceiptFor(s, op, id, h, transaction);
      var run := StoringSteps(h, s.m.handlers[h].phase.payer, transaction) + HearingSteps(op, h);
      && Runs(s, run) && Evidenced(s.k, Final(s, run).k, op, UNLOCKED, receipt)
      && id in Final(s, run).m.rows && Final(s, run).m.rows[id].receipt == Some(receipt)
  {
    var receipt := ReceiptFor(s, op, id, h, transaction);
    var first := StoringSteps(h, s.m.handlers[h].phase.payer, transaction);
    MerchantStoresIt(s, op, id, h, transaction);
    MO.HandlerIsBacked(s.m, h);
    var stored := Final(s, first);
    ServedFetchUnlocks(stored, op, id, h, receipt);
    RunsOn(s, first, HearingSteps(op, h));
  }

  // ---- What the merchant answered is what the attempt records ----

  /** A served receipt is for the fetch's own request; only its payer may be another than the fetch's treasury. */
  lemma ServedIsForTheFetch(s: State, op: nat, receipt: Receipt)
    requires DeliveryOk(s) && M.HandlersOk(s.m) && M.RowsOk(s.m) && Answered(s, op)
    requires s.m.handlers[s.delivered[op]].phase == M.Done(M.Unlocked(receipt))
    requires receipt.payer != ""
    ensures KO.Legible(receipt) && KO.IsFor(receipt, s.k.ops[op].job.req, receipt.payer)
  {
    var hd := s.m.handlers[s.delivered[op]];
    assert M.ServedRow(s.m, hd) && M.Serving(hd.phase, receipt);
    assert M.RowOk(s.m, hd.id);
  }

  lemma ServedPayer(m: M.State, h: nat, receipt: Receipt)
    requires M.Inv(m) && h in m.handlers && m.handlers[h].phase == M.Done(M.Unlocked(receipt))
    ensures |receipt.payer| == 56
  {
    var hd := m.handlers[h];
    assert M.ServedRow(m, hd) && M.Serving(hd.phase, receipt);
    assert M.RowOk(m, hd.id);
    var k :| M.SettleCall(k, hd.id, m.rows[hd.id].payloadHash.value, receipt.payer) in m.calls;
    assert M.CallOk(m, M.SettleCall(k, hd.id, m.rows[hd.id].payloadHash.value, receipt.payer));
  }

  /**
    A refusal by the facilitator and a failed settlement are recorded as such. A served receipt lets the fetch read
    the body exactly when its own treasury paid, and blocks it otherwise; so does every other answer.
   */
  lemma ReplyOutcome(s: State, op: nat)
    requires Inv(s) && Enabled(s, Reply(op))
    ensures KO.Placed(s.k, op)
    ensures
      var phase := s.m.handlers[s.delivered[op]].phase;
      var k, t := s.k, Next(s, Reply(op)).k;
      if phase == M.Done(M.FacilitatorRejected) then
        KO.Wrote(k, t, op, op, KO.Standing(k, op, BLOCKED, BLOCK, Some(FACILITATOR_REJECTED)), K.Finished)
      else if phase == M.Done(M.SettlementFailed) then
        KO.Wrote(k, t, op, op, KO.Standing(k, op, UNKNOWN, PENDING, Some(SETTLEMENT_UNKNOWN)), K.Finished)
      else if phase.Done? && phase.reply.Unlocked? then
        if phase.reply.receipt.payer == KO.Treasury(k, op)
        then KO.Left(k, t, op, K.Unlocking(phase.reply.receipt, true))
        else KO.Wrote(k, t, op, op, KO.Standing(k, op, BLOCKED, BLOCK, Some(RECEIPT_MISMATCH)), K.Finished)
      else KO.Wrote(k, t, op, op, KO.Standing(k, op, BLOCKED, BLOCK, Some(RESOURCE_UNLOCK_FAILED)), K.Finished)
  {
    var phase := s.m.handlers[s.delivered[op]].phase;
    KO.PaidReplyOutcome(s.k, op, PaidReplyOf(phase));
    if phase.Done? && phase.reply.Unlocked? {
      ServedPayer(s.m, s.delivered[op], phase.reply.receipt);
      ServedIsForTheFetch(s, op, phase.reply.receipt);
    }
  }

  // ---- A whole fetch ----

  /** SDK steps that the merchant takes no part in. */
  predicate Private(call: K.Action) {
    !call.Submit? && !call.Unlock? && !call.StatusReturns?
  }

  function Lifted(calls: seq<K.Action>): (actions: seq<Action>)
    ensures |actions| == |calls|
  {
    seq(|calls|, i requires 0 <= i < |calls| => AtSdk(calls[i]))
  }

  lemma {:induction false} LiftedRuns(s: State, calls: seq<K.Action>)
    requires K.Runs(s.k, calls) && forall i | 0 <= i < |calls| :: Private(calls[i])
    ensures Runs(s, Lifted(calls)) && Final(s, Lifted(calls)) == s.(k := K.Final(s.k, calls))
    decreases |calls|
  {
    if calls != [] {
      assert Private(calls[0]);
      LiftedRuns(Next(s, AtSdk(calls[0])), calls[1..]);
      RunsOne(s, AtSdk(calls[0]), Lifted(calls[1..]));
      assert [AtSdk(calls[0])] + Lifted(calls[1..]) == Lifted(calls);
    }
  }

  /** A signed fetch for an open challenge on the challenge's own terms. */
  predicate ReadyToSend(s: State, op: nat, id: string) {
    && IsFetch(s.k, op) && s.k.ops[op].phase.Signed? && s.k.ops[op].job.req.challengeId == Some(id)
    && MO.Open(s.m, id) && s.m.rows[id].requirements == s.k.ops[op].job.req
  }

  predicate NewHash(s: State, hash: string) {
    && hash != ""
    && (forall o | o in s.hashes :: s.hashes[o] != hash)
    && (forall h | h in s.m.handlers :: s.m.handlers[h].hash != hash)
  }

  /** From s to t the fetch was sent and nothing else of the SDK moved. */
  predicate SentOnly(s: State, t: State, op: nat)
    requires op in s.k.ops && s.k.ops[op].phase.Signed? && op in s.k.db.attempts
  {
    KO.Wrote(s.k, t.k, op, op, KO.Standing(s.k, op, SUBMITTED, PENDING, None),
             K.Submitted(s.k.ops[op].phase.allowance))
  }

  lemma ReadyIsSent(s: State, op: nat, id: string, hash: string)
    requires Inv(s) && ReadyToSend(s, op, id) && NewHash(s, hash)
    ensures op in s.k.db.attempts && op !in s.delivered
    ensures
      && Enabled(s, Send(op, hash))
      && var t := Next(s, Send(op, hash));
         && Inv(t) && SentOnly(s, t, op) && t.m == s.m
         && t.hashes == s.hashes[op := hash] && t.delivered == s.delivered
  {
    KO.InsertedIsPlaced(s.k, op);
    KO.SubmitOutcome(s.k, op);
    StepKeepsInv(s, Send(op, hash));
  }

  lemma SentIsDelivered(s: State, op: nat, id: string, hash: string, h: nat)
    requires Inv(s) && AwaitsReply(s, op, id) && op in s.hashes && s.hashes[op] == hash && hash != ""
    requires op !in s.delivered && h !in s.m.handlers
    requires MO.Open(s.m, id) && s.m.rows[id].requirements == s.k.ops[op].job.req
    ensures
      && Enabled(s, Deliver(op, h))
      && var t := Next(s, Deliver(op, h));
         && Inv(t) && t.k == s.k && t.delivered == s.delivered[op := h]
         && t.m.rows == s.m.rows && t.m.now == s.m.now
         && h in t.m.handlers && t.m.handlers[h] == M.Handler(id, hash, s.k.ops[op].job.req, M.Checked)
  {
    MO.ArrivalAnswer(s.m, h, s.k.ops[op].job.req, hash, id);
    StepKeepsInv(s, Deliver(op, h));
  }

  lemma DeliveredIsClaimed(s: State, id: string, h: nat)
    requires Inv(s) && h in s.m.handlers && s.m.handlers[h].phase.Checked? && s.m.handlers[h].id == id
    requires MO.Open(s.m, id)
    ensures
      var a := AtMerchant(M.Claim(h));
      && Enabled(s, a)
      && var t := Next(s, a);
         && Inv(t) && t.k == s.k && t.delivered == s.delivered
         && h in t.m.handlers && t.m.handlers[h] == s.m.handlers[h].(phase := M.Verifying)
  {
    MO.ClaimAnswer(s.m, h);
    StepKeepsInv(s, AtMerchant(M.Claim(h)));
  }

  lemma ClaimedIsVerified(s: State, h: nat, payer: string)
    requires Inv(s) && h in s.m.handlers && s.m.handlers[h].phase.Verifying? && IsContractAddress(payer)
    ensures
      var a := AtMerchant(M.VerifyReturns(h, M.Verified(true, Some(payer))));
      && Enabled(s, a)
      && var t := Next(s, a);
         && Inv(t) && t.k == s.k && t.delivered == s.delivered
         && h in t.m.handlers && t.m.handlers[h] == s.m.handlers[h].(phase := M.Settling(payer))
  {
    MO.VerdictAnswer(s.m, h, M.Verified(true, Some(payer)));
    StepKeepsInv(s, AtMerchant(M.VerifyReturns(h, M.Verified(true, Some(payer)))));
  }

  function SendingSteps(op: nat, hash: string, h: nat, payer: string): seq<Action> {
    [Send(op, hash), Deliver(op, h)]
    + [AtMerchant(M.Claim(h)), AtMerchant(M.VerifyReturns(h, M.Verified(true, Some(payer))))]
  }

  lemma SentAwaitsReply(s: State, t: State, op: nat, id: string)
    requires ReadyToSend(s, op, id) && op in s.k.db.attempts && SentOnly(s, t, op)
    ensures AwaitsReply(t, op, id) && t.k.ops[op].job == s.k.ops[op].job
  {
  }

  /** After sending and delivery the payload is with handler h, which is about to claim. */
  ghost predicate WithMerchant(s: State, t: State, op: nat, id: string, h: nat) {
    && op in s.k.ops && s.k.ops[op].phase.Signed? && op in s.k.db.attempts
    && SentOnly(s, t, op) && AwaitsReply(t, op, id) && MO.Open(t.m, id)
    && op in t.delivered && t.delivered[op] == h
    && h in t.m.handlers && t.m.handlers[h].phase.Checked? && t.m.handlers[h].id == id
  }

  lemma SentIsWithMerchant(s: State, sent: State, t: State, op: nat, id: string, h: nat)
    requires ReadyToSend(s, op, id) && op in s.k.db.attempts && SentOnly(s, sent, op) && t.k == sent.k
    requires t.m.rows == s.m.rows && t.m.now == s.m.now && op in t.delivered && t.delivered[op] == h
    requires h in t.m.handlers && t.m.handlers[h].phase.Checked? && t.m.handlers[h].id == id
    ensures WithMerchant(s, t, op, id, h)
  {
  }

  lemma ReadyIsDelivered(s: State, op: nat, id: string, hash: string, h: nat)
    requires Inv(s) && ReadyToSend(s, op, id) && NewHash(s, hash) && h !in s.m.handlers
    ensures Enabled(s, Send(op, hash)) && Enabled(Next(s, Send(op, hash)), Deliver(op, h))
    ensures
      var t := Next(Next(s, Send(op, hash)), Deliver(op, h));
      Inv(t) && WithMerchant(s, t, op, id, h)
  {
    ReadyIsSent(s, op, id, hash);
    var sent := Next(s, Send(op, hash));
    SentAwaitsReply(s, sent, op, id);
    SentIsDelivered(sent, op, id, hash, h);
    SentIsWithMerchant(s, sent, Next(sent, Deliver(op, h)), op, id, h);
  }

  lemma DeliveredAwaitsSettlement(s: State, op: nat, id: string, h: nat, payer: string)
    requires Inv(s) && AwaitsReply(s, op, id) && MO.Open(s.m, id) && IsContractAddress(payer)
    requires op in s.delivered && s.delivered[op] == h
    requires h in s.m.handlers && s.m.handlers[h].phase.Checked? && s.m.handlers[h].id == id
    ensures
      var steps := [AtMerchant(M.Claim(h)), AtMerchant(M.VerifyReturns(h, M.Verified(true, Some(payer))))];
      && Runs(s, steps)
      && var t := Final(s, steps);
         Inv(t) && t.k == s.k && AwaitsSettlement(t, op, id, h) && t.m.handlers[h].phase == M.Settling(payer)
  {
    DeliveredIsClaimed(s, id, h);
    ClaimedIsVerified(Next(s, AtMerchant(M.Claim(h))), h, payer);
    RunsTwo(s, AtMerchant(M.Claim(h)), AtMerchant(M.VerifyReturns(h, M.Verified(true, Some(payer)))));
  }

  lemma ReadyAwaitsSettlement(s: State, op: nat, id: string, hash: string, h: nat, payer: string)
    requires Inv(s) && ReadyToSend(s, op, id) && NewHash(s, hash) && h !in s.m.handlers && IsContractAddress(payer)
    ensures op in s.k.db.attempts && Runs(s, SendingSteps(op, hash, h, payer))
    ensures
      var t := Final(s, SendingSteps(op, hash, h, payer));
      && Inv(t) && SentOnly(s, t, op) && AwaitsSettlement(t, op, id, h) && t.m.handlers[h].phase == M.Settling(payer)
  {
    var first := [Send(op, hash), Deliver(op, h)];
    ReadyIsDelivered(s, op, id, hash, h);
    RunsTwo(s, Send(op, hash), Deliver(op, h));
    DeliveredAwaitsSettlement(Final(s, first), op, id, h, payer);
    RunsOn(s, first, [AtMerchant(M.Claim(h)), AtMerchant(M.VerifyReturns(h, M.Verified(true, Some(payer))))]);
  }

  /** What a sent fetch ends with is what the signed one ends with. */
  lemma SentKeepsTerms(s: State, t: State, u: State, op: nat, receipt: Receipt)
    requires op in s.k.ops && s.k.ops[op].job.Payment? && s.k.ops[op].phase.Signed? && op in s.k.db.attempts
    requires SentOnly(s, t, op) && s.k.ops[op].job.allowanceId in s.k.db.allowances
    ensures op in t.k.ops && t.k.ops[op].job == s.k.ops[op].job && t.k.db.allowances == s.k.db.allowances
    ensures KO.Treasury(t.k, op) == KO.Treasury(s.k, op)
    ensures KO.Unrecorded(s.k, op, receipt.transaction) <==> KO.Unrecorded(t.k, op, receipt.transaction)
    ensures Evidenced(t.k, u.k, op, UNLOCKED, receipt) ==> Evidenced(s.k, u.k, op, UNLOCKED, receipt)
  {
    OwnRowDoesNotCount(s.k, t.k, op, receipt.transaction);
  }

  /** A signed fetch of an open challenge, verified for its treasury and settled, unlocks with the stored receipt. */
  lemma ReadyFetchUnlocks(s: State, op: nat, id: string, hash: string, h: nat, receipt: Receipt)
    requires Inv(s) && ReadyToSend(s, op, id) && NewHash(s, hash) && h !in s.m.handlers
    requires s.k.ops[op].job.allowanceId in s.k.db.allowances && IsContractAddress(KO.Treasury(s.k, op))
    requires IsHex64(receipt.transaction) && KO.Unrecorded(s.k, op, receipt.transaction)
    requires
      var req := s.k.ops[op].job.req;
      receipt == Receipt(true, receipt.transaction, req.network, KO.Treasury(s.k, op), req.amount, req.asset, req.payTo,
                         id)
    ensures Runs(s, FetchSteps(op, hash, h, receipt.payer, receipt.transaction))
    ensures
      var t := Final(s, FetchSteps(op, hash, h, receipt.payer, receipt.transaction));
      Evidenced(s.k, t.k, op, UNLOCKED, receipt) && id in t.m.rows && t.m.rows[id].receipt == Some(receipt)
  {
    var first := SendingSteps(op, hash, h, receipt.payer);
    var rest := StoringSteps(h, receipt.payer, receipt.transaction) + HearingSteps(op, h);
    ReadyAwaitsSettlement(s, op, id, hash, h, receipt.payer);
    var t := Final(s, first);
    SentKeepsTerms(s, t, t, op, receipt);
    SettledFetchUnlocks(t, op, id, h, receipt.transaction);
    SentKeepsTerms(s, t, Final(t, rest), op, receipt);
    RunsOn(s, first, rest);
  }

  function FetchSteps(op: nat, hash: string, h: nat, payer: string, transaction: string): seq<Action> {
    SendingSteps(op, hash, h, payer) + (StoringSteps(h, payer, transaction) + HearingSteps(op, h))
  }

  /** From s to t only the SDK moved, to where this fetch can be sent. */
  predicate ReadyFor(s: State, t: State, op: nat, job: K.Job, id: string)
    requires job.Payment?
  {
    && ReadyToSend(t, op, id) && t.k.ops[op].job == job
    && t.m == s.m && t.hashes == s.hashes && t.delivered == s.delivered
    && op in t.k.db.attempts && t.k.db.attempts == s.k.db.attempts[op := t.k.db.attempts[op]]
    && job.allowanceId in s.k.db.allowances && job.allowanceId in t.k.db.allowances
    && t.k.db.allowances[job.allowanceId].identity == s.k.db.allowances[job.allowanceId].identity
  }

  /** The SDK's own steps bring a payable request of an open challenge to where it can be sent. */
  lemma PayableIsReady(s: State, op: nat, job: K.Job, chain: K.ChainReply, ledger: int, id: string)
    requires K.Inv(s.k) && op !in s.k.ops && job.Payment? && job.kind.Fetch?
    requires job.allowanceId in s.k.db.allowances && s.k.db.allowances[job.allowanceId].status != REVOKED
    requires KO.Unattempted(s.k, KO.Reserved(op, job))
    requires KO.Payable(job.req, s.k.db.allowances[job.allowanceId], chain, ledger)
    requires job.req.challengeId == Some(id) && MO.Open(s.m, id) && s.m.rows[id].requirements == job.req
    ensures
      var calls := Lifted(KO.AuthorizingSteps(op, job, chain, ledger));
      && Runs(s, calls) && ReadyFor(s, Final(s, calls), op, job, id)
  {
    var calls := KO.AuthorizingSteps(op, job, chain, ledger);
    KO.PayableIsSigned(s.k, op, job, chain, ledger);
    AuthorizingIsPrivate(op, job, chain, ledger);
    LiftedRuns(s, calls);
    var k := K.Final(s.k, calls);
    SignedIsReady(s, k, op, job, id, k.ops[op].phase);
  }

  lemma AuthorizingIsPrivate(op: nat, job: K.Job, chain: K.ChainReply, ledger: int)
    requires job.Payment?
    ensures
      var calls := KO.AuthorizingSteps(op, job, chain, ledger);
      forall i | 0 <= i < |calls| :: Private(calls[i])
  {
  }

  lemma SignedIsReady(s: State, k: K.State, op: nat, job: K.Job, id: string, phase: K.Phase)
    requires job.Payment? && job.kind.Fetch? && phase.Signed?
    requires KO.Underway(s.k, k, op, job, KO.Reserved(op, job).(state := SIGNED, decision := ALLOW), phase)
    requires job.req.challengeId == Some(id) && MO.Open(s.m, id) && s.m.rows[id].requirements == job.req
    ensures ReadyFor(s, s.(k := k), op, job, id)
  {
  }

  lemma ReadyForUnlocks(s: State, t: State, op: nat, job: K.Job, id: string, hash: string, h: nat, receipt: Receipt)
    requires Inv(t) && job.Payment? && ReadyFor(s, t, op, job, id)
    requires NewHash(s, hash) && h !in s.m.handlers
    requires receipt == ReceiptTo(job.req, s.k.db.allowances[job.allowanceId], id, receipt.transaction)
    requires IsContractAddress(receipt.payer) && IsHex64(receipt.transaction)
    requires KO.Unrecorded(s.k, op, receipt.transaction)
    ensures
      var rest := FetchSteps(op, hash, h, receipt.payer, receipt.transaction);
      Runs(t, rest) && EndsWith(Final(t, rest), op, id, receipt)
  {
    OwnRowDoesNotCount(s.k, t.k, op, receipt.transaction);
    ReadyFetchUnlocks(t, op, id, hash, h, receipt);
    EvidencedEnds(t.k, Final(t, FetchSteps(op, hash, h, receipt.payer, receipt.transaction)), op, id, receipt);
  }

  /** The receipt of a payment on these terms by the allowance's treasury. */
  function ReceiptTo(req: Requirements, record: Allowance, id: string, transaction: string): Receipt {
    Receipt(true, transaction, req.network, record.identity.treasuryContract, req.amount, req.asset, req.payTo, id)
  }

  /**
    From every reachable state of the composed system, a new request for an open challenge within a stored allowance
    can be fetched: reserved, allowed, signed, sent, verified, settled, stored, served and unlocked, so that attempt
    and challenge end with one and the same receipt.
   */
  lemma PayableFetchUnlocks(s: State, op: nat, job: K.Job, chain: K.ChainReply, ledger: int, id: string, hash: string,
                            h: nat, transaction: string)
    requires Inv(s) && op !in s.k.ops && job.Payment? && job.kind.Fetch?
    requires job.allowanceId in s.k.db.allowances && s.k.db.allowances[job.allowanceId].status != REVOKED
    requires KO.Unattempted(s.k, KO.Reserved(op, job))
    requires KO.Payable(job.req, s.k.db.allowances[job.allowanceId], chain, ledger)
    requires job.req.challengeId == Some(id) && MO.Open(s.m, id) && s.m.rows[id].requirements == job.req
    requires NewHash(s, hash) && h !in s.m.handlers && IsHex64(transaction)
    requires IsContractAddress(s.k.db.allowances[job.allowanceId].identity.treasuryContract)
    requires KO.Unrecorded(s.k, op, transaction)
    ensures
      var receipt := ReceiptTo(job.req, s.k.db.allowances[job.allowanceId], id, transaction);
      exists run :: Runs(s, run) && EndsWith(Final(s, run), op, id, receipt)
  {
    var calls := Lifted(KO.AuthorizingSteps(op, job, chain, ledger));
    var receipt := ReceiptTo(job.req, s.k.db.allowances[job.allowanceId], id, transaction);
    PayableIsReady(s, op, job, chain, ledger, id);
    RunKeepsInv(s, calls);
    ReadyForUnlocks(s, Final(s, calls), op, job, id, hash, h, receipt);
    RunsOn(s, calls, FetchSteps(op, hash, h, receipt.payer, transaction));
  }

  lemma EvidencedEnds(k: K.State, t: State, op: nat, id: string, receipt: Receipt)
    requires Evidenced(k, t.k, op, UNLOCKED, receipt) && id in t.m.rows && t.m.rows[id].receipt == Some(receipt)
    ensures EndsWith(t, op, id, receipt)
  {
  }

  /** The attempt is unlocked and the challenge settled, both with this receipt. */
  predicate EndsWith(s: State, op: nat, id: string, receipt: Receipt) {
    && op in s.k.db.attempts && s.k.db.attempts[op].state == UNLOCKED && s.k.db.attempts[op].decision == ALLOW
    && s.k.db.attempts[op].receipt == Some(receipt)
    && id in s.m.rows && s.m.rows[id].receipt == Some(receipt)
  }
}
