/**
  What each /premium request is answered, branch by branch and in terms of the stored row, and that a payment the
  facilitator settles is stored and served.
 */
module MerchantOutcomes {
  import opened Wrappers
  import opened X402
  import opened MerchantProtocol

  // ---- Before the facilitator is asked ----

  /** The eight terms a payment repeats from its challenge. */
  predicate SameTerms(left: Requirements, right: Requirements) {
    && left.scheme == right.scheme
    && left.network == right.network
    && left.amount == right.amount
    && left.payTo == right.payTo
    && left.asset == right.asset
    && left.maxTimeoutSeconds == right.maxTimeoutSeconds
    && left.challengeId == right.challengeId
    && left.areFeesSponsored == right.areFeesSponsored
  }

  /** An unknown challenge, a late payment and a payment on other terms are told apart, in that order. */
  lemma ArrivalAnswer(s: State, h: nat, accepted: Requirements, hash: string, id: string)
    requires Enabled(s, Arrive(h, accepted, hash))
    requires accepted.challengeId == Some(id) || (accepted.challengeId.None? && id == "")
    ensures
      var t := Next(s, Arrive(h, accepted, hash));
      var phase := t.handlers[h].phase;
      && t.rows == s.rows && t.calls == s.calls
      && (phase == Done(NotFound) <==> id !in s.rows)
      && (phase == Done(Expired) <==> id in s.rows && s.rows[id].expiresAt < s.now)
      && (phase == Done(RequirementsMismatch) <==>
            id in s.rows && s.now <= s.rows[id].expiresAt && !SameTerms(accepted, s.rows[id].requirements))
      && (phase == Checked <==>
            id in s.rows && s.now <= s.rows[id].expiresAt && SameTerms(accepted, s.rows[id].requirements))
  {
  }

  /** A challenge is answered with expiry exactly when more than a minute passed since it was minted. */
  lemma ExpiresAfterAMinute(s: State, id: string, req: Requirements, actions: seq<Action>, h: nat,
                            accepted: Requirements, hash: string)
    requires Enabled(s, Mint(id, req)) && Runs(Next(s, Mint(id, req)), actions)
    requires
      var t := Final(Next(s, Mint(id, req)), actions);
      Enabled(t, Arrive(h, accepted, hash)) && accepted.challengeId == Some(id)
    ensures
      var t := Final(Next(s, Mint(id, req)), actions);
      Next(t, Arrive(h, accepted, hash)).handlers[h].phase == Done(Expired) <==> t.now - s.now > 60_000
  {
    var m := Next(s, Mint(id, req));
    RunIsLater(m, actions);
    ArrivalAnswer(Final(m, actions), h, accepted, hash, id);
  }

  /** The stored hash and receipt decide a claim; only an unclaimed row changes. */
  lemma ClaimAnswer(s: State, h: nat)
    requires Inv(s) && Enabled(s, Claim(h))
    ensures s.handlers[h].id in s.rows
    ensures
      var t := Next(s, Claim(h));
      var hd := s.handlers[h];
      var row := s.rows[hd.id];
      var phase := t.handlers[h].phase;
      && (phase == Verifying <==> row.payloadHash.None?)
      && (phase == Done(SettlementPending) <==> row.payloadHash == Some(hd.hash) && row.receipt.None?)
      && (phase == Done(AlreadyClaimed) <==> row.payloadHash.Some? && row.payloadHash.value != hd.hash)
      && (forall r :: phase == Unlocking(r) <==> row.payloadHash == Some(hd.hash) && row.receipt == Some(r))
      && t.rows == (if row.payloadHash.None? then s.rows[hd.id := row.(payloadHash := Some(hd.hash))] else s.rows)
      && t.calls == s.calls
  {
    var hd := s.handlers[h];
    assert Admitted(s, hd) && RowOk(s, hd.id);
  }

  /** "Pending" is answered exactly while another handler holds the challenge with the same payload. */
  lemma PendingIffHeldElsewhere(s: State, h: nat)
    requires Inv(s) && Enabled(s, Claim(h))
    ensures
      var hd := s.handlers[h];
      Next(s, Claim(h)).handlers[h].phase == Done(SettlementPending) <==>
      exists k :: k != h && HolderOf(s, k, hd.id) && s.handlers[k].hash == hd.hash
  {
    var hd := s.handlers[h];
    ClaimAnswer(s, h);
    if k :| k != h && HolderOf(s, k, hd.id) && s.handlers[k].hash == hd.hash {
      assert HolderRow(s, s.handlers[k]);
    }
    if s.rows[hd.id].payloadHash == Some(hd.hash) && s.rows[hd.id].receipt.None? {
      var k :| HolderOf(s, k, hd.id);
      assert HolderRow(s, s.handlers[k]);
    }
  }

  // ---- What the facilitator's verdict leads to ----

  /** The verdict names a contract that can pay. */
  predicate VerifiedContract(verify: VerifyReply) {
    verify.Verified? && verify.isValid && verify.payer.Some? && IsContractAddress(verify.payer.value)
  }

  /**
    A verified contract payer leads to the one settle call. Any other verdict, or none, gives the claim back: the
    handler answers that the facilitator rejected or was unavailable, and the challenge is unclaimed again.
   */
  lemma VerdictAnswer(s: State, h: nat, verify: VerifyReply)
    requires Inv(s) && Enabled(s, VerifyReturns(h, verify))
    ensures s.handlers[h].id in s.rows
    ensures
      var hd := s.handlers[h];
      var t := Next(s, VerifyReturns(h, verify));
      if VerifiedContract(verify) then
        && t.handlers[h] == hd.(phase := Settling(verify.payer.value)) && t.rows == s.rows
        && t.calls == s.calls + [SettleCall(h, hd.id, hd.hash, verify.payer.value)]
      else
        && Enabled(t, Release(h))
        && var u := Next(t, Release(h));
           && u.handlers[h].phase == Done(if verify.VerifyThrew? then FacilitatorUnavailable else FacilitatorRejected)
           && u.rows == s.rows[hd.id := s.rows[hd.id].(payloadHash := None)]
           && u.rows[hd.id].receipt.None? && u.calls == s.calls
  {
    var hd := s.handlers[h];
    assert Admitted(s, hd) && HolderRow(s, hd);
  }

  // ---- What the settlement leads to ----

  /** The facilitator settled the payment of this payer in a transaction with a 64-digit hexadecimal hash. */
  predicate SettledFor(reply: SettleReply, payer: string) {
    reply.SettleReply? && reply.success && reply.payer == payer && IsHex64(reply.transaction)
  }

  /** The receipt of that settlement, on the terms of the challenge. */
  function ReceiptOf(reply: SettleReply, req: Requirements, id: string, payer: string): Receipt
    requires reply.SettleReply?
  {
    Receipt(true, reply.transaction, req.network, payer, req.amount, req.asset, req.payTo, id)
  }

  /** Handler h has stored and served this receipt, and nothing else of the table changed. */
  predicate ServedFrom(s: State, t: State, h: nat, receipt: Receipt)
    requires At(s, h) && s.handlers[h].id in s.rows
  {
    var hd := s.handlers[h];
    && At(t, h) && t.handlers[h] == hd.(phase := Done(Unlocked(receipt)))
    && t.rows == s.rows[hd.id := s.rows[hd.id].(receipt := Some(receipt))]
  }

  lemma HandlerIsBacked(s: State, h: nat)
    requires Inv(s) && At(s, h) && s.handlers[h].phase.Settling?
    ensures
      var hd := s.handlers[h];
      && hd.id in s.rows && s.rows[hd.id].requirements == hd.accepted && hd.accepted.challengeId == Some(hd.id)
      && s.rows[hd.id].payloadHash == Some(hd.hash) && s.rows[hd.id].receipt.None?
      && |hd.phase.payer| == 56
  {
    var hd := s.handlers[h];
    assert Admitted(s, hd) && HolderRow(s, hd) && Backed(s, h) && RowOk(s, hd.id);
    assert CallOk(s, SettleCall(h, hd.id, hd.hash, hd.phase.payer));
  }

  /** Where the settle reply takes a handler whose challenge has these terms. */
  lemma SettlePhase(reply: SettleReply, req: Requirements, id: string, payer: string)
    requires req.challengeId == Some(id) && payer != ""
    ensures AfterSettle(reply, req, payer) ==
      if SettledFor(reply, payer) then Storing(ReceiptOf(reply, req, id, payer)) else Done(SettlementFailed)
  {
  }

  /**
    From every reachable state: a settlement for the verified payer, in a transaction with a proper hash, is stored
    and served on the challenge's own terms; any other reply is answered as a failed settlement and stores nothing.
   */
  lemma SettlementAnswer(s: State, h: nat, reply: SettleReply)
    requires Inv(s) && Enabled(s, SettleReturns(h, reply))
    ensures s.handlers[h].id in s.rows
    ensures
      var hd := s.handlers[h];
      var t := Next(s, SettleReturns(h, reply));
      if SettledFor(reply, hd.phase.payer) then
        && Enabled(t, StoreReceipt(h)) && Enabled(Next(t, StoreReceipt(h)), LedgerRead(h))
        && ServedFrom(s, Next(Next(t, StoreReceipt(h)), LedgerRead(h)), h,
                      ReceiptOf(reply, s.rows[hd.id].requirements, hd.id, hd.phase.payer))
      else t.handlers[h] == hd.(phase := Done(SettlementFailed)) && t.rows == s.rows
  {
    var hd := s.handlers[h];
    HandlerIsBacked(s, h);
    SettlePhase(reply, hd.accepted, hd.id, hd.phase.payer);
  }

  /** Handler h has this receipt to store or has stored it, unless it died on the way. */
  ghost predicate OnCourse(s: State, h: nat, receipt: Receipt) {
    && At(s, h)
    && (s.handlers[h].phase == Storing(receipt) || s.handlers[h].phase.Crashed?
        || (Serving(s.handlers[h].phase, receipt) && s.handlers[h].id in s.rows
            && s.rows[s.handlers[h].id].receipt == Some(receipt)))
  }

  lemma OthersStand(s: State, a: Action, h: nat)
    requires Enabled(s, a) && At(s, h) && (a.Tick? || a.Mint? || a.h != h)
    ensures At(Next(s, a), h) && Next(s, a).handlers[h] == s.handlers[h]
  {
  }

  lemma OwnStepStaysOnCourse(s: State, a: Action, h: nat, receipt: Receipt)
    requires Enabled(s, a) && OnCourse(s, h, receipt) && !a.Tick? && !a.Mint? && a.h == h
    requires HolderRow(s, s.handlers[h])
    ensures OnCourse(Next(s, a), h, receipt)
  {
  }

  lemma StepStaysOnCourse(s: State, a: Action, h: nat, receipt: Receipt)
    requires HandlersOk(s) && Enabled(s, a) && OnCourse(s, h, receipt)
    ensures OnCourse(Next(s, a), h, receipt)
  {
    if !a.Tick? && !a.Mint? && a.h == h {
      assert HolderRow(s, s.handlers[h]);
      OwnStepStaysOnCourse(s, a, h, receipt);
    } else {
      OthersStand(s, a, h);
      StepKeepsRows(s, a);
    }
  }

  /**
    Whatever other handlers do meanwhile, a settled payment is never answered otherwise: after any run its handler is
    storing the receipt, has stored it and serves it, or has died.
   */
  lemma {:induction false} RunStaysOnCourse(s: State, actions: seq<Action>, h: nat, receipt: Receipt)
    requires Inv(s) && Runs(s, actions) && OnCourse(s, h, receipt)
    ensures OnCourse(Final(s, actions), h, receipt)
    decreases |actions|
  {
    if actions != [] {
      StepKeepsInv(s, actions[0]);
      StepStaysOnCourse(s, actions[0], h, receipt);
      RunStaysOnCourse(Next(s, actions[0]), actions[1..], h, receipt);
    }
  }

  lemma SettledStaysOnCourse(s: State, h: nat, reply: SettleReply, actions: seq<Action>)
    requires Inv(s) && Enabled(s, SettleReturns(h, reply)) && SettledFor(reply, s.handlers[h].phase.payer)
    requires Runs(Next(s, SettleReturns(h, reply)), actions)
    ensures s.handlers[h].id in s.rows
    ensures
      var hd := s.handlers[h];
      var receipt := ReceiptOf(reply, s.rows[hd.id].requirements, hd.id, hd.phase.payer);
      OnCourse(Final(Next(s, SettleReturns(h, reply)), actions), h, receipt)
  {
    var hd := s.handlers[h];
    HandlerIsBacked(s, h);
    SettlePhase(reply, hd.accepted, hd.id, hd.phase.payer);
    StepKeepsInv(s, SettleReturns(h, reply));
    RunStaysOnCourse(Next(s, SettleReturns(h, reply)), actions, h,
                     ReceiptOf(reply, s.rows[hd.id].requirements, hd.id, hd.phase.payer));
  }

  // ---- Whole requests ----

  /** An honest payment arrives, claims and is verified, then it is settled, and its receipt is stored and served. */
  function VerifyingSteps(h: nat, req: Requirements, hash: string, payer: string): seq<Action> {
    [Arrive(h, req, hash), Claim(h), VerifyReturns(h, Verified(true, Some(payer)))]
  }

  function SettlingSteps(h: nat, payer: string, transaction: string): seq<Action> {
    [SettleReturns(h, SettleReply(true, transaction, payer)), StoreReceipt(h), LedgerRead(h)]
  }

  function Payment(h: nat, req: Requirements, hash: string, payer: string, transaction: string): seq<Action> {
    VerifyingSteps(h, req, hash, payer) + SettlingSteps(h, payer, transaction)
  }

  lemma RunsOne(s: State, a: Action, rest: seq<Action>)
    requires Enabled(s, a) && Runs(Next(s, a), rest)
    ensures Runs(s, [a] + rest) && Final(s, [a] + rest) == Final(Next(s, a), rest)
  {
    assert ([a] + rest)[1..] == rest;
  }

  lemma RunsTwo(s: State, a: Action, b: Action)
    requires Enabled(s, a) && Enabled(Next(s, a), b)
    ensures Runs(s, [a, b]) && Final(s, [a, b]) == Next(Next(s, a), b)
  {
    RunsOne(Next(s, a), b, []);
    RunsOne(s, a, [b]);
    assert [a] + [b] == [a, b];
  }

  lemma RunsThree(s: State, a: Action, b: Action, c: Action)
    requires Enabled(s, a) && Enabled(Next(s, a), b) && Enabled(Next(Next(s, a), b), c)
    ensures Runs(s, [a, b, c]) && Final(s, [a, b, c]) == Next(Next(Next(s, a), b), c)
  {
    RunsTwo(Next(s, a), b, c);
    RunsOne(s, a, [b, c]);
    assert [a] + [b, c] == [a, b, c];
  }

  lemma {:induction false} RunsOn(s: State, first: seq<Action>, rest: seq<Action>)
    requires Runs(s, first) && Runs(Final(s, first), rest)
    ensures Runs(s, first + rest) && Final(s, first + rest) == Final(Final(s, first), rest)
    decreases |first|
  {
    if first == [] {
      assert first + rest == rest;
    } else {
      RunsOn(Next(s, first[0]), first[1..], rest);
      RunsOne(s, first[0], first[1..] + rest);
      assert [first[0]] + (first[1..] + rest) == first + rest;
    }
  }

  /** An unclaimed challenge that has not expired. */
  predicate Open(s: State, id: string) {
    id in s.rows && s.rows[id].payloadHash.None? && s.now <= s.rows[id].expiresAt
  }

  /** A claim that only the settlement is missing for. */
  ghost predicate AwaitsSettlement(s: State, v: State, id: string, h: nat, hash: string, payer: string)
    requires id in s.rows
  {
    && Inv(v) && At(v, h) && v.handlers[h] == Handler(id, hash, s.rows[id].requirements, Settling(payer))
    && v.rows == s.rows[id := s.rows[id].(payloadHash := Some(hash))]
  }

  lemma PaymentIsVerified(s: State, id: string, h: nat, hash: string, payer: string)
    requires Inv(s) && Open(s, id) && !At(s, h) && hash != ""
    requires VerifiedContract(Verified(true, Some(payer)))
    ensures Runs(s, VerifyingSteps(h, s.rows[id].requirements, hash, payer))
    ensures AwaitsSettlement(s, Final(s, VerifyingSteps(h, s.rows[id].requirements, hash, payer)), id, h, hash, payer)
  {
    var req := s.rows[id].requirements;
    assert RowOk(s, id);
    ArrivalAnswer(s, h, req, hash, id);
    ArriveKeepsInv(s, h, req, hash);
    var a := Next(s, Arrive(h, req, hash));
    ClaimAnswer(a, h);
    ClaimKeepsInv(a, h);
    var c := Next(a, Claim(h));
    VerdictAnswer(c, h, Verified(true, Some(payer)));
    VerifyReturnsKeepsInv(c, h, Verified(true, Some(payer)));
    RunsThree(s, Arrive(h, req, hash), Claim(h), VerifyReturns(h, Verified(true, Some(payer))));
  }

  lemma AwaitedIsServed(s: State, v: State, id: string, h: nat, hash: string, payer: string, transaction: string)
    requires id in s.rows && AwaitsSettlement(s, v, id, h, hash, payer)
    requires SettledFor(SettleReply(true, transaction, payer), payer)
    ensures Runs(v, SettlingSteps(h, payer, transaction))
    ensures
      var t := Final(v, SettlingSteps(h, payer, transaction));
      var req := s.rows[id].requirements;
      var receipt := Receipt(true, transaction, req.network, payer, req.amount, req.asset, req.payTo, id);
      && At(t, h) && t.handlers[h] == Handler(id, hash, req, Done(Unlocked(receipt)))
      && t.rows == s.rows[id := s.rows[id].(payloadHash := Some(hash), receipt := Some(receipt))]
  {
    SettlementAnswer(v, h, SettleReply(true, transaction, payer));
    RunsThree(v, SettleReturns(h, SettleReply(true, transaction, payer)), StoreReceipt(h), LedgerRead(h));
  }

  /**
    From every reachable state, every open challenge can be paid: whatever its terms, an honest payment runs through
    and ends with the receipt stored under its own payload and served.
   */
  lemma OpenChallengeIsServed(s: State, id: string, h: nat, hash: string, payer: string, transaction: string)
    requires Inv(s) && Open(s, id) && !At(s, h) && hash != ""
    requires VerifiedContract(Verified(true, Some(payer))) && SettledFor(SettleReply(true, transaction, payer), payer)
    ensures Runs(s, Payment(h, s.rows[id].requirements, hash, payer, transaction))
    ensures
      var req := s.rows[id].requirements;
      var t := Final(s, Payment(h, req, hash, payer, transaction));
      var receipt := Receipt(true, transaction, req.network, payer, req.amount, req.asset, req.payTo, id);
      && At(t, h) && t.handlers[h] == Handler(id, hash, req, Done(Unlocked(receipt)))
      && t.rows == s.rows[id := s.rows[id].(payloadHash := Some(hash), receipt := Some(receipt))]
  {
    var first := VerifyingSteps(h, s.rows[id].requirements, hash, payer);
    PaymentIsVerified(s, id, h, hash, payer);
    AwaitedIsServed(s, Final(s, first), id, h, hash, payer, transaction);
    RunsOn(s, first, SettlingSteps(h, payer, transaction));
  }

  /** From the empty table: for every minted set of requirements there is a run that ends unlocked. */
  lemma EveryMintCanBePaid(id: string, req: Requirements, hash: string, payer: string, transaction: string)
    requires req.challengeId == Some(id) && hash != ""
    requires VerifiedContract(Verified(true, Some(payer))) && SettledFor(SettleReply(true, transaction, payer), payer)
    ensures
      var run := [Mint(id, req)] + Payment(0, req, hash, payer, transaction);
      && Runs(INIT, run) && At(Final(INIT, run), 0)
      && Final(INIT, run).handlers[0].phase
           == Done(Unlocked(Receipt(true, transaction, req.network, payer, req.amount, req.asset, req.payTo, id)))
  {
    MintKeepsInv(INIT, id, req);
    var s := Next(INIT, Mint(id, req));
    OpenChallengeIsServed(s, id, 0, hash, payer, transaction);
    RunsOne(INIT, Mint(id, req), Payment(0, req, hash, payer, transaction));
  }

  /** A settled challenge serves its receipt to its own payload, until it expires, and refuses every other payload. */
  lemma SettledChallengeAnswers(s: State, id: string, h: nat, hash: string)
    requires Inv(s) && id in s.rows && s.rows[id].receipt.Some? && s.now <= s.rows[id].expiresAt
    requires !At(s, h) && hash != ""
    ensures
      var req := s.rows[id].requirements;
      && Runs(s, [Arrive(h, req, hash), Claim(h)])
      && var t := Final(s, [Arrive(h, req, hash), Claim(h)]);
         && t.rows == s.rows && t.calls == s.calls && At(t, h)
         && if s.rows[id].payloadHash == Some(hash)
            then Enabled(t, LedgerRead(h))
                 && Next(t, LedgerRead(h)).handlers[h].phase == Done(Unlocked(s.rows[id].receipt.value))
            else t.handlers[h].phase == Done(AlreadyClaimed)
  {
    var req := s.rows[id].requirements;
    assert RowOk(s, id);
    ArrivalAnswer(s, h, req, hash, id);
    ArriveKeepsInv(s, h, req, hash);
    var a := Next(s, Arrive(h, req, hash));
    ClaimAnswer(a, h);
    RunsTwo(s, Arrive(h, req, hash), Claim(h));
  }
}
