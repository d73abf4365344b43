/**
  Any number of /premium handlers over one challenge table. Each store call is one step, and so is each
  facilitator reply, so handlers interleave at every await; a handler may also die at any point.
 */
module MerchantProtocol {
  import opened Wrappers
  import opened X402
  import opened MerchantStore

  datatype Reply =
    | NotFound
    | Expired
    | RequirementsMismatch
    | SettlementPending
    | AlreadyClaimed
    | FacilitatorUnavailable
    | FacilitatorRejected
    | SettlementFailed
    | Unlocked(receipt: Receipt)

  /** Where a handler stands; every phase but Done and Crashed is an await or the gap before a store call. */
  datatype Phase =
    | Checked
    | Verifying
    | Releasing(rejected: bool)
    | Settling(payer: string)
    | Storing(receipt: Receipt)
    | Unlocking(receipt: Receipt)
    | Done(reply: Reply)
    | Crashed(heldClaim: bool)

  datatype Handler = Handler(id: string, hash: string, accepted: Requirements, phase: Phase)

  /** One call of the facilitator's settle route. */
  datatype SettleCall = SettleCall(handler: nat, id: string, hash: string, payer: string)

  datatype State = State(rows: Table, handlers: map<nat, Handler>, calls: seq<SettleCall>, now: int)

  const INIT := State(map[], map[], [], 0)

  datatype VerifyReply = Verified(isValid: bool, payer: Option<string>) | VerifyThrew

  datatype Action =
    | Tick(elapsed: nat)
    | Mint(id: string, requirements: Requirements)
    | Arrive(h: nat, accepted: Requirements, hash: string)
    | Claim(h: nat)
    | VerifyReturns(h: nat, verify: VerifyReply)
    | Release(h: nat)
    | SettleReturns(h: nat, settle: SettleReply)
    | StoreReceipt(h: nat)
    | LedgerRead(h: nat)
    | Crash(h: nat)

  const CHALLENGE_TTL_MS := 60_000

  predicate At(s: State, h: nat) {
    h in s.handlers
  }

  predicate Enabled(s: State, a: Action) {
    match a
    case Tick(_) => true
    case Mint(id, requirements) => id !in s.rows && requirements.challengeId == Some(id)
    case Arrive(h, _, hash) => !At(s, h) && hash != ""
    case Claim(h) => At(s, h) && s.handlers[h].phase.Checked?
    case VerifyReturns(h, _) => At(s, h) && s.handlers[h].phase.Verifying?
    case Release(h) => At(s, h) && s.handlers[h].phase.Releasing?
    case SettleReturns(h, _) => At(s, h) && s.handlers[h].phase.Settling?
    case StoreReceipt(h) => At(s, h) && s.handlers[h].phase.Storing?
    case LedgerRead(h) => At(s, h) && s.handlers[h].phase.Unlocking?
    case Crash(h) => At(s, h) && !s.handlers[h].phase.Done? && !s.handlers[h].phase.Crashed?
  }

  /** Looking the challenge up, then the expiry and requirements checks, before any claim. */
  function Admission(s: State, accepted: Requirements): Phase {
    var id := ChallengeOf(accepted);
    if id !in s.rows then Done(NotFound)
    else if s.rows[id].expiresAt < s.now then Done(Expired)
    else if accepted != s.rows[id].requirements then Done(RequirementsMismatch)
    else Checked
  }

  function AfterClaim(claim: MerchantStore.Claim): Phase {
    match claim
    case Acquired => Verifying
    case Pending => Done(SettlementPending)
    case Conflict => Done(AlreadyClaimed)
    case Settled(receipt) => Unlocking(receipt)
  }

  /** Only a valid verdict naming a contract payer leads to a settle call. */
  function AfterVerify(verify: VerifyReply): Phase {
    match verify
    case VerifyThrew => Releasing(false)
    case Verified(isValid, payer) =>
      if isValid && payer.Some? && IsContractAddress(payer.value) then Settling(payer.value)
      else Releasing(true)
  }

  function AfterSettle(settle: SettleReply, req: Requirements, payer: string): Phase {
    var receipt := ClientReceipt(settle, req);
    if receipt.Some? && ReceiptMatches(receipt.value, req, payer) then Storing(receipt.value)
    else Done(SettlementFailed)
  }

  function MoveTo(s: State, h: nat, phase: Phase): State
    requires At(s, h)
  {
    s.(handlers := s.handlers[h := s.handlers[h].(phase := phase)])
  }

  function Next(s: State, a: Action): State
    requires Enabled(s, a)
  {
    match a
    case Tick(elapsed) => s.(now := s.now + elapsed)
    case Mint(id, requirements) =>
      s.(rows := s.rows[id := Row(requirements, s.now + CHALLENGE_TTL_MS, None, None)])
    case Arrive(h, accepted, hash) =>
      s.(handlers := s.handlers[h := Handler(ChallengeOf(accepted), hash, accepted, Admission(s, accepted))])
    case Claim(h) =>
      var hd := s.handlers[h];
      MoveTo(s, h, AfterClaim(ClaimResult(s.rows, hd.id, hd.hash))).(rows := ClaimTable(s.rows, hd.id, hd.hash))
    case VerifyReturns(h, verify) =>
      var phase := AfterVerify(verify);
      var moved := MoveTo(s, h, phase);
      if phase.Settling?
      then moved.(calls := s.calls + [SettleCall(h, s.handlers[h].id, s.handlers[h].hash, phase.payer)])
      else moved
    case Release(h) =>
      var hd := s.handlers[h];
      var reply := if hd.phase.rejected then FacilitatorRejected else FacilitatorUnavailable;
      MoveTo(s, h, Done(reply)).(rows := ReleaseTable(s.rows, hd.id, hd.hash))
    case SettleReturns(h, settle) =>
      MoveTo(s, h, AfterSettle(settle, s.handlers[h].accepted, s.handlers[h].phase.payer))
    case StoreReceipt(h) =>
      var hd := s.handlers[h];
      MoveTo(s, h, Unlocking(hd.phase.receipt)).(rows := SettleTable(s.rows, hd.id, hd.hash, hd.phase.receipt))
    case LedgerRead(h) => MoveTo(s, h, Done(Unlocked(s.handlers[h].phase.receipt)))
    case Crash(h) => MoveTo(s, h, Crashed(Holds(s.handlers[h].phase)))
  }

  ghost predicate Runs(s: State, actions: seq<Action>)
    decreases |actions|
  {
    actions == [] || (Enabled(s, actions[0]) && Runs(Next(s, actions[0]), actions[1..]))
  }

  ghost function Final(s: State, actions: seq<Action>): State
    requires Runs(s, actions)
    decreases |actions|
  {
    if actions == [] then s else Final(Next(s, actions[0]), actions[1..])
  }

  // ---- The invariant ----

  /** The handler acquired the claim and has not given it back: in flight, or stopped after it could settle. */
  predicate Holds(p: Phase) {
    || p.Verifying? || p.Releasing? || p.Settling? || p.Storing?
    || p == Done(SettlementFailed)
    || p == Crashed(true)
  }

  /** The handler may have called settle. */
  predicate PastSettle(p: Phase) {
    || p.Settling? || p.Storing? || p.Unlocking? || p.Crashed?
    || p == Done(SettlementFailed)
    || (p.Done? && p.reply.Unlocked?)
  }

  predicate Serving(p: Phase, receipt: Receipt) {
    p == Unlocking(receipt) || p == Done(Unlocked(receipt))
  }

  ghost predicate Admitted(s: State, hd: Handler) {
    && hd.hash != ""
    && hd.id == ChallengeOf(hd.accepted)
    && (hd.phase.Done? || (hd.id in s.rows && s.rows[hd.id].requirements == hd.accepted))
  }

  ghost predicate HolderRow(s: State, hd: Handler) {
    Holds(hd.phase) ==>
      && hd.id in s.rows
      && s.rows[hd.id].requirements == hd.accepted
      && s.rows[hd.id].payloadHash == Some(hd.hash)
      && s.rows[hd.id].receipt.None?
  }

  ghost predicate ServedRow(s: State, hd: Handler) {
    forall receipt :: Serving(hd.phase, receipt) ==>
      && hd.id in s.rows
      && s.rows[hd.id].requirements == hd.accepted
      && s.rows[hd.id].payloadHash == Some(hd.hash)
      && s.rows[hd.id].receipt == Some(receipt)
  }

  ghost predicate HandlersOk(s: State) {
    forall h :: h in s.handlers ==>
      Admitted(s, s.handlers[h]) && HolderRow(s, s.handlers[h]) && ServedRow(s, s.handlers[h])
  }

  ghost predicate OneHolder(s: State) {
    forall h, k, id :: HolderOf(s, h, id) && HolderOf(s, k, id) ==> h == k
  }

  /** A handler waiting on settle, or about to store, is backed by its own call with its own payer. */
  ghost predicate Backed(s: State, h: nat)
    requires h in s.handlers
  {
    var hd := s.handlers[h];
    && (hd.phase.Settling? ==> SettleCall(h, hd.id, hd.hash, hd.phase.payer) in s.calls)
    && (hd.phase.Storing? ==>
          && SettleCall(h, hd.id, hd.hash, hd.phase.receipt.payer) in s.calls
          && ReceiptMatches(hd.phase.receipt, hd.accepted, hd.phase.receipt.payer))
  }

  ghost predicate HandlersBacked(s: State) {
    forall h :: h in s.handlers ==> Backed(s, h)
  }

  ghost predicate CallOk(s: State, c: SettleCall) {
    && c.handler in s.handlers
    && s.handlers[c.handler].id == c.id
    && s.handlers[c.handler].hash == c.hash
    && PastSettle(s.handlers[c.handler].phase)
    && IsContractAddress(c.payer)
    && c.id in s.rows
    && s.rows[c.id].payloadHash == Some(c.hash)
    && (s.rows[c.id].receipt.None? ==> Holds(s.handlers[c.handler].phase))
  }

  ghost predicate CallsOk(s: State) {
    forall c :: c in s.calls ==> CallOk(s, c)
  }

  ghost predicate AtMostOneCall(s: State) {
    forall i, j :: 0 <= i < j < |s.calls| ==> s.calls[i].id != s.calls[j].id
  }

  /** A stored receipt came out of the challenge's settle call and matches its requirements and payer. */
  ghost predicate RowOk(s: State, id: string)
    requires id in s.rows
  {
    var row := s.rows[id];
    && row.requirements.challengeId == Some(id)
    && row.payloadHash != Some("")
    && (row.receipt.Some? ==>
          && row.payloadHash.Some?
          && ReceiptMatches(row.receipt.value, row.requirements, row.receipt.value.payer)
          && exists h :: SettleCall(h, id, row.payloadHash.value, row.receipt.value.payer) in s.calls)
  }

  ghost predicate RowsOk(s: State) {
    forall id :: id in s.rows ==> RowOk(s, id)
  }

  ghost predicate HolderOf(s: State, h: nat, id: string) {
    h in s.handlers && s.handlers[h].id == id && Holds(s.handlers[h].phase)
  }

  /** A claimed row without a receipt is held by someone. */
  ghost predicate ClaimsHeld(s: State) {
    forall id :: id in s.rows && s.rows[id].payloadHash.Some? && s.rows[id].receipt.None? ==>
      exists h :: HolderOf(s, h, id)
  }

  ghost predicate Inv(s: State) {
    && HandlersOk(s)
    && OneHolder(s)
    && HandlersBacked(s)
    && CallsOk(s)
    && AtMostOneCall(s)
    && RowsOk(s)
    && ClaimsHeld(s)
  }

  // ---- Every step keeps it ----

  /** From s to t only handler h of challenge id, that challenge's row, and the call log may have changed. */
  ghost predicate Frame(s: State, t: State, h: nat, id: string) {
    && h in t.handlers && t.handlers[h].id == id
    && (h in s.handlers ==> s.handlers[h].id == id)
    && (forall k :: k != h ==> (k in t.handlers <==> k in s.handlers))
    && (forall k :: k in s.handlers && k != h ==> t.handlers[k] == s.handlers[k])
    && (forall i :: i in s.rows <==> i in t.rows)
    && (forall i :: i in s.rows && i != id ==> t.rows[i] == s.rows[i])
    && (id in s.rows ==> t.rows[id].requirements == s.rows[id].requirements)
    && (forall c :: c in s.calls ==> c in t.calls)
  }

  lemma HandlersFramed(s: State, t: State, h: nat, id: string)
    requires Frame(s, t, h, id) && HandlersOk(s)
    requires Admitted(t, t.handlers[h]) && HolderRow(t, t.handlers[h]) && ServedRow(t, t.handlers[h])
    requires forall k :: k in s.handlers && k != h && s.handlers[k].id == id ==>
      HolderRow(t, s.handlers[k]) && ServedRow(t, s.handlers[k])
    ensures HandlersOk(t)
  {
  }

  lemma OneHolderFramed(s: State, t: State, h: nat, id: string)
    requires Frame(s, t, h, id) && OneHolder(s)
    requires Holds(t.handlers[h].phase) ==> forall k :: HolderOf(s, k, id) ==> k == h
    ensures OneHolder(t)
  {
    forall j, k, i | HolderOf(t, j, i) && HolderOf(t, k, i) ensures j == k {
      if j != h {
        assert HolderOf(s, j, i);
      }
      if k != h {
        assert HolderOf(s, k, i);
      }
    }
  }

  lemma BackingFramed(s: State, t: State, h: nat, id: string)
    requires Frame(s, t, h, id) && HandlersBacked(s) && Backed(t, h)
    ensures HandlersBacked(t)
  {
  }

  lemma CallsFramed(s: State, t: State, h: nat, id: string)
    requires Frame(s, t, h, id) && CallsOk(s)
    requires forall c :: c in t.calls && c.id == id ==> CallOk(t, c)
    requires forall c :: c in t.calls && c.id != id ==> c in s.calls
    ensures CallsOk(t)
  {
  }

  lemma RowsFramed(s: State, t: State, h: nat, id: string)
    requires Frame(s, t, h, id) && RowsOk(s)
    requires id in t.rows ==> RowOk(t, id)
    ensures RowsOk(t)
  {
  }

  lemma ClaimsFramed(s: State, t: State, h: nat, id: string)
    requires Frame(s, t, h, id) && ClaimsHeld(s)
    requires id in t.rows && t.rows[id].payloadHash.Some? && t.rows[id].receipt.None? ==>
      exists k :: HolderOf(t, k, id)
    ensures ClaimsHeld(t)
  {
    forall i | i in t.rows && t.rows[i].payloadHash.Some? && t.rows[i].receipt.None?
      ensures exists k :: HolderOf(t, k, i)
    {
      if i != id {
        var k :| HolderOf(s, k, i);
        assert HolderOf(t, k, i);
      }
    }
  }

  lemma HoldersIgnoreClock(s: State, t: State)
    requires t == s.(now := t.now) && OneHolder(s) && ClaimsHeld(s)
    ensures OneHolder(t) && ClaimsHeld(t)
  {
    forall h, k, i | HolderOf(t, h, i) && HolderOf(t, k, i) ensures h == k {
      assert HolderOf(s, h, i) && HolderOf(s, k, i);
    }
    forall i | i in t.rows && t.rows[i].payloadHash.Some? && t.rows[i].receipt.None?
      ensures exists h :: HolderOf(t, h, i)
    {
      var h :| HolderOf(s, h, i);
      assert HolderOf(t, h, i);
    }
  }

  lemma TickKeepsInv(s: State, elapsed: nat)
    requires Inv(s)
    ensures Inv(Next(s, Tick(elapsed)))
  {
    var t := Next(s, Tick(elapsed));
    HoldersIgnoreClock(s, t);
    forall h | h in t.handlers ensures Backed(t, h) {
      assert Backed(s, h);
    }
    forall c | c in t.calls ensures CallOk(t, c) {
      assert CallOk(s, c);
    }
    forall i | i in t.rows ensures RowOk(t, i) {
      assert RowOk(s, i);
    }
  }

  lemma MintKeepsInv(s: State, id: string, requirements: Requirements)
    requires Inv(s) && Enabled(s, Mint(id, requirements))
    ensures Inv(Next(s, Mint(id, requirements)))
  {
    var t := Next(s, Mint(id, requirements));
    forall i | i in t.rows ensures RowOk(t, i) {
      if i != id {
        assert RowOk(s, i);
      }
    }
    forall i | i in t.rows && t.rows[i].payloadHash.Some? && t.rows[i].receipt.None?
      ensures exists h :: HolderOf(t, h, i)
    {
      var h :| HolderOf(s, h, i);
      assert HolderOf(t, h, i);
    }
    forall h, k, i | HolderOf(t, h, i) && HolderOf(t, k, i) ensures h == k {
      assert HolderOf(s, h, i) && HolderOf(s, k, i);
    }
  }

  lemma ArriveKeepsInv(s: State, h: nat, accepted: Requirements, hash: string)
    requires Inv(s) && Enabled(s, Arrive(h, accepted, hash))
    ensures Inv(Next(s, Arrive(h, accepted, hash)))
  {
    var t := Next(s, Arrive(h, accepted, hash));
    var id := ChallengeOf(accepted);
    assert Frame(s, t, h, id);
    QuietStep(s, t, h, id);
  }

  /** A step that leaves rows and calls alone and changes neither what handler h holds nor what it serves. */
  ghost predicate QuietMove(s: State, t: State, h: nat, id: string) {
    && Frame(s, t, h, id)
    && t.rows == s.rows && t.calls == s.calls
    && Admitted(t, t.handlers[h]) && ServedRow(t, t.handlers[h]) && Backed(t, h)
    && (h in s.handlers ==>
          s.handlers[h].hash == t.handlers[h].hash && s.handlers[h].accepted == t.handlers[h].accepted)
    && (Holds(t.handlers[h].phase) <==> h in s.handlers && Holds(s.handlers[h].phase))
    && (h in s.handlers && PastSettle(s.handlers[h].phase) ==> PastSettle(t.handlers[h].phase))
  }

  lemma QuietStep(s: State, t: State, h: nat, id: string)
    requires Inv(s) && QuietMove(s, t, h, id)
    ensures Inv(t)
  {
    HandlersFramed(s, t, h, id);
    if Holds(t.handlers[h].phase) {
      assert HolderOf(s, h, id);
    }
    OneHolderFramed(s, t, h, id);
    BackingFramed(s, t, h, id);
    forall c | c in t.calls && c.id == id ensures CallOk(t, c) {
      assert CallOk(s, c);
    }
    CallsFramed(s, t, h, id);
    assert id in t.rows ==> RowOk(s, id);
    RowsFramed(s, t, h, id);
    if id in t.rows && t.rows[id].payloadHash.Some? && t.rows[id].receipt.None? {
      var k :| HolderOf(s, k, id);
      assert HolderOf(t, k, id);
    }
    ClaimsFramed(s, t, h, id);
  }

  /** A new phase that holds and serves what the old one did, and is backed if it stores. */
  ghost predicate SamePart(s: State, h: nat, phase: Phase)
    requires At(s, h)
  {
    var hd := s.handlers[h];
    && !hd.phase.Done?
    && (Holds(phase) <==> Holds(hd.phase)) && (PastSettle(hd.phase) ==> PastSettle(phase))
    && ServedRow(s, hd.(phase := phase))
    && !phase.Settling?
    && (phase.Storing? ==>
          && SettleCall(h, hd.id, hd.hash, phase.receipt.payer) in s.calls
          && ReceiptMatches(phase.receipt, hd.accepted, phase.receipt.payer))
  }

  lemma SamePartIsQuiet(s: State, h: nat, phase: Phase)
    requires At(s, h) && Admitted(s, s.handlers[h]) && SamePart(s, h, phase)
    ensures QuietMove(s, MoveTo(s, h, phase), h, s.handlers[h].id)
  {
  }

  lemma MovesQuietly(s: State, h: nat, phase: Phase)
    requires Inv(s) && At(s, h) && SamePart(s, h, phase)
    ensures Inv(MoveTo(s, h, phase))
  {
    assert HandlersOk(s);
    assert Admitted(s, s.handlers[h]);
    SamePartIsQuiet(s, h, phase);
    QuietStep(s, MoveTo(s, h, phase), h, s.handlers[h].id);
  }

  lemma CrashKeepsInv(s: State, h: nat)
    requires Inv(s) && Enabled(s, Crash(h))
    ensures Inv(Next(s, Crash(h)))
  {
    MovesQuietly(s, h, Crashed(Holds(s.handlers[h].phase)));
  }

  lemma LedgerReadKeepsInv(s: State, h: nat)
    requires Inv(s) && Enabled(s, LedgerRead(h))
    ensures Inv(Next(s, LedgerRead(h)))
  {
    var hd := s.handlers[h];
    assert Admitted(s, hd) && ServedRow(s, hd) && Serving(hd.phase, hd.phase.receipt);
    MovesQuietly(s, h, Done(Unlocked(hd.phase.receipt)));
  }

  lemma SettleReturnsKeepsInv(s: State, h: nat, settle: SettleReply)
    requires Inv(s) && Enabled(s, SettleReturns(h, settle))
    ensures Inv(Next(s, SettleReturns(h, settle)))
  {
    var hd := s.handlers[h];
    assert Backed(s, h) && Admitted(s, hd);
    MovesQuietly(s, h, AfterSettle(settle, hd.accepted, hd.phase.payer));
  }

  /** The heart of at-most-once: the one holder of a claim has made no settle call while it is still verifying. */
  lemma NoCallYet(s: State, h: nat)
    requires At(s, h) && HolderRow(s, s.handlers[h]) && OneHolder(s) && CallsOk(s)
    requires s.handlers[h].phase.Verifying? || s.handlers[h].phase.Releasing?
    ensures forall c :: c in s.calls ==> c.id != s.handlers[h].id
  {
    forall c | c in s.calls ensures c.id != s.handlers[h].id {
      assert CallOk(s, c);
      if c.id == s.handlers[h].id {
        assert HolderOf(s, h, c.id) && HolderOf(s, c.handler, c.id);
      }
    }
  }

  lemma VerifyReturnsKeepsInv(s: State, h: nat, verify: VerifyReply)
    requires Inv(s) && Enabled(s, VerifyReturns(h, verify))
    ensures Inv(Next(s, VerifyReturns(h, verify)))
  {
    var hd := s.handlers[h];
    var phase := AfterVerify(verify);
    var t := Next(s, VerifyReturns(h, verify));
    assert Admitted(s, hd) && HolderRow(s, hd);
    if phase.Releasing? {
      MovesQuietly(s, h, phase);
    } else {
      NoCallYet(s, h);
      SettleCalled(s, t, h, SettleCall(h, hd.id, hd.hash, phase.payer));
    }
  }

  /** The step that issues the settle call. */
  lemma SettleCalled(s: State, t: State, h: nat, call: SettleCall)
    requires Inv(s) && At(s, h) && s.handlers[h].phase.Verifying?
    requires call.handler == h && call.id == s.handlers[h].id && call.hash == s.handlers[h].hash
    requires IsContractAddress(call.payer)
    requires forall c :: c in s.calls ==> c.id != call.id
    requires t == MoveTo(s, h, Settling(call.payer)).(calls := s.calls + [call])
    ensures Inv(t)
  {
    var id := call.id;
    assert forall c :: c in t.calls <==> c in s.calls || c == call;
    assert Admitted(s, s.handlers[h]) && HolderRow(s, s.handlers[h]);
    assert HolderOf(s, h, id) && HolderOf(t, h, id);
    assert Frame(s, t, h, id);
    HandlersFramed(s, t, h, id);
    OneHolderFramed(s, t, h, id);
    BackingFramed(s, t, h, id);
    CallsFramed(s, t, h, id);
    assert RowOk(s, id);
    RowsFramed(s, t, h, id);
    ClaimsFramed(s, t, h, id);
  }

  /** A step of the one holder of a challenge, or of nobody, which rewrites the hash or receipt of its row. */
  lemma RowStep(s: State, t: State, h: nat, id: string)
    requires Inv(s) && Frame(s, t, h, id) && t.calls == s.calls && id in s.rows
    requires forall k :: HolderOf(s, k, id) ==> k == h
    requires s.rows[id].receipt.None?
    requires Admitted(t, t.handlers[h]) && HolderRow(t, t.handlers[h]) && ServedRow(t, t.handlers[h]) && Backed(t, h)
    requires forall c :: c in t.calls && c.id == id ==> CallOk(t, c)
    requires RowOk(t, id)
    requires t.rows[id].payloadHash.Some? && t.rows[id].receipt.None? ==> HolderOf(t, h, id)
    ensures Inv(t)
  {
    forall k | k in s.handlers && k != h && s.handlers[k].id == id
      ensures HolderRow(t, s.handlers[k]) && ServedRow(t, s.handlers[k])
    {
      assert ServedRow(s, s.handlers[k]);
      assert !HolderOf(s, k, id);
    }
    HandlersFramed(s, t, h, id);
    OneHolderFramed(s, t, h, id);
    BackingFramed(s, t, h, id);
    CallsFramed(s, t, h, id);
    RowsFramed(s, t, h, id);
    ClaimsFramed(s, t, h, id);
  }

  /** Nobody holds an unclaimed challenge, and no settle call was ever made for it. */
  lemma UnclaimedIsFree(s: State, id: string)
    requires Inv(s) && id in s.rows && s.rows[id].payloadHash.None?
    ensures forall k :: !HolderOf(s, k, id)
    ensures forall c :: c in s.calls ==> c.id != id
  {
  }

  lemma AcquireKeepsInv(s: State, t: State, h: nat, id: string)
    requires Inv(s) && At(s, h) && s.handlers[h].phase.Checked? && s.handlers[h].id == id
    requires id in s.rows && s.rows[id].payloadHash.None? && s.rows[id].receipt.None?
    requires t == MoveTo(s, h, Verifying).(rows := s.rows[id := s.rows[id].(payloadHash := Some(s.handlers[h].hash))])
    ensures Inv(t)
  {
    assert Admitted(s, s.handlers[h]) && RowOk(s, id);
    UnclaimedIsFree(s, id);
    assert HolderOf(t, h, id);
    RowStep(s, t, h, id);
  }

  /** A refused claim leaves the handler with an answer, or serving the stored receipt to its own payload. */
  lemma RefusedStep(s: State, h: nat, phase: Phase)
    requires Inv(s) && At(s, h) && s.handlers[h].phase.Checked?
    requires s.handlers[h].id in s.rows && Admitted(s, s.handlers[h])
    requires phase == Done(SettlementPending) || phase == Done(AlreadyClaimed) || (
               && phase.Unlocking?
               && s.rows[s.handlers[h].id].receipt == Some(phase.receipt)
               && s.rows[s.handlers[h].id].payloadHash == Some(s.handlers[h].hash))
    ensures Inv(MoveTo(s, h, phase))
  {
    MovesQuietly(s, h, phase);
  }

  lemma RefusedClaimKeepsInv(s: State, h: nat)
    requires Inv(s) && Enabled(s, Claim(h))
    requires !ClaimResult(s.rows, s.handlers[h].id, s.handlers[h].hash).Acquired?
    ensures Inv(Next(s, Claim(h)))
  {
    var hd := s.handlers[h];
    assert Admitted(s, hd) && RowOk(s, hd.id);
    AcquiredIffUpdated(s.rows, hd.id, hd.hash);
    RefusedStep(s, h, AfterClaim(ClaimResult(s.rows, hd.id, hd.hash)));
  }

  lemma ClaimKeepsInv(s: State, h: nat)
    requires Inv(s) && Enabled(s, Claim(h))
    ensures Inv(Next(s, Claim(h)))
  {
    var hd := s.handlers[h];
    if ClaimResult(s.rows, hd.id, hd.hash).Acquired? {
      AcquireKeepsInv(s, Next(s, Claim(h)), h, hd.id);
    } else {
      RefusedClaimKeepsInv(s, h);
    }
  }

  lemma ReleaseKeepsInv(s: State, h: nat)
    requires Inv(s) && Enabled(s, Release(h))
    ensures Inv(Next(s, Release(h)))
  {
    var hd := s.handlers[h];
    assert Admitted(s, hd) && HolderRow(s, hd);
    ReleasedStep(s, Next(s, Release(h)), h, hd.id,
                 if hd.phase.rejected then FacilitatorRejected else FacilitatorUnavailable);
  }

  lemma ReleasedStep(s: State, t: State, h: nat, id: string, reply: Reply)
    requires Inv(s) && At(s, h) && s.handlers[h].id == id && s.handlers[h].phase.Releasing?
    requires id in s.rows && s.rows[id].receipt.None? && reply in {FacilitatorRejected, FacilitatorUnavailable}
    requires t == MoveTo(s, h, Done(reply)).(rows := s.rows[id := s.rows[id].(payloadHash := None)])
    ensures Inv(t)
  {
    assert Admitted(s, s.handlers[h]) && HolderRow(s, s.handlers[h]) && HolderOf(s, h, id) && RowOk(s, id);
    NoCallYet(s, h);
    RowStep(s, t, h, id);
  }

  lemma StoreReceiptKeepsInv(s: State, h: nat)
    requires Inv(s) && Enabled(s, StoreReceipt(h))
    ensures Inv(Next(s, StoreReceipt(h)))
  {
    var hd := s.handlers[h];
    assert Admitted(s, hd) && HolderRow(s, hd);
    StoredStep(s, Next(s, StoreReceipt(h)), h, hd.id, hd.phase.receipt);
  }

  /** The holder's own call produced the receipt it now stores. */
  lemma StoredStep(s: State, t: State, h: nat, id: string, receipt: Receipt)
    requires Inv(s) && At(s, h) && s.handlers[h].id == id && s.handlers[h].phase == Storing(receipt)
    requires id in s.rows && s.rows[id].receipt.None? && s.rows[id].payloadHash == Some(s.handlers[h].hash)
    requires t == MoveTo(s, h, Unlocking(receipt)).(rows := s.rows[id := s.rows[id].(receipt := Some(receipt))])
    ensures Inv(t)
  {
    assert Admitted(s, s.handlers[h]) && HolderOf(s, h, id) && RowOk(s, id) && Backed(s, h);
    forall c | c in t.calls && c.id == id ensures CallOk(t, c) {
      assert CallOk(s, c);
      assert HolderOf(s, c.handler, c.id);
    }
    RowStep(s, t, h, id);
  }

  lemma RowStepKeepsInv(s: State, a: Action)
    requires Inv(s) && Enabled(s, a) && (a.Mint? || a.Claim? || a.Release? || a.StoreReceipt?)
    ensures Inv(Next(s, a))
  {
    match a
    case Mint(id, requirements) => MintKeepsInv(s, id, requirements);
    case Claim(h) => ClaimKeepsInv(s, h);
    case Release(h) => ReleaseKeepsInv(s, h);
    case StoreReceipt(h) => StoreReceiptKeepsInv(s, h);
  }

  lemma ReplyStepKeepsInv(s: State, a: Action)
    requires Inv(s) && Enabled(s, a) && (a.VerifyReturns? || a.SettleReturns? || a.LedgerRead? || a.Crash?)
    ensures Inv(Next(s, a))
  {
    match a
    case VerifyReturns(h, verify) => VerifyReturnsKeepsInv(s, h, verify);
    case SettleReturns(h, settle) => SettleReturnsKeepsInv(s, h, settle);
    case LedgerRead(h) => LedgerReadKeepsInv(s, h);
    case Crash(h) => CrashKeepsInv(s, h);
  }

  lemma StepKeepsInv(s: State, a: Action)
    requires Inv(s) && Enabled(s, a)
    ensures Inv(Next(s, a))
  {
    if a.Tick? {
      TickKeepsInv(s, a.elapsed);
    } else if a.Arrive? {
      ArriveKeepsInv(s, a.h, a.accepted, a.hash);
    } else if a.Mint? || a.Claim? || a.Release? || a.StoreReceipt? {
      RowStepKeepsInv(s, a);
    } else {
      ReplyStepKeepsInv(s, a);
    }
  }

  // ---- What every run guarantees ----

  lemma {:induction false} RunKeepsInv(s: State, actions: seq<Action>)
    requires Inv(s) && Runs(s, actions)
    ensures Inv(Final(s, actions))
    decreases |actions|
  {
    if actions != [] {
      StepKeepsInv(s, actions[0]);
      RunKeepsInv(Next(s, actions[0]), actions[1..]);
    }
  }

  /** Over every interleaving, settle is called at most once per challenge. */
  lemma SettledAtMostOnce(actions: seq<Action>, i: nat, j: nat)
    requires Runs(INIT, actions)
    requires i < |Final(INIT, actions).calls| && j < |Final(INIT, actions).calls|
    requires Final(INIT, actions).calls[i].id == Final(INIT, actions).calls[j].id
    ensures i == j
  {
    RunKeepsInv(INIT, actions);
  }

  /**
    Every 200 carries the stored receipt, to the payload that holds the row, and that receipt matches the
    challenge requirements and the contract payer the facilitator verified before its settle call.
   */
  lemma UnlockedIsSettled(actions: seq<Action>, h: nat, receipt: Receipt)
    requires Runs(INIT, actions)
    requires At(Final(INIT, actions), h) && Final(INIT, actions).handlers[h].phase == Done(Unlocked(receipt))
    ensures
      var s := Final(INIT, actions);
      var hd := s.handlers[h];
      && hd.id in s.rows
      && s.rows[hd.id].receipt == Some(receipt)
      && s.rows[hd.id].payloadHash == Some(hd.hash)
      && ReceiptMatches(receipt, s.rows[hd.id].requirements, receipt.payer)
      && IsContractAddress(receipt.payer)
      && exists k :: SettleCall(k, hd.id, hd.hash, receipt.payer) in s.calls
  {
    RunKeepsInv(INIT, actions);
    var s := Final(INIT, actions);
    var hd := s.handlers[h];
    assert ServedRow(s, hd) && Serving(hd.phase, receipt);
    assert RowOk(s, hd.id);
    var k :| SettleCall(k, hd.id, hd.hash, receipt.payer) in s.calls;
    assert CallOk(s, SettleCall(k, hd.id, hd.hash, receipt.payer));
  }

  /** Two requests unlocked for one challenge sent the same payload and were given the same receipt. */
  lemma ReplaysAgree(actions: seq<Action>, h: nat, k: nat, r: Receipt, q: Receipt)
    requires Runs(INIT, actions)
    requires
      var s := Final(INIT, actions);
      && At(s, h) && At(s, k) && s.handlers[h].id == s.handlers[k].id
      && s.handlers[h].phase == Done(Unlocked(r)) && s.handlers[k].phase == Done(Unlocked(q))
    ensures r == q && Final(INIT, actions).handlers[h].hash == Final(INIT, actions).handlers[k].hash
  {
    UnlockedIsSettled(actions, h, r);
    UnlockedIsSettled(actions, k, q);
  }

  /** A claimed challenge without a receipt is held by exactly one handler; no other challenge is held. */
  lemma ClaimedIffHeldOnce(actions: seq<Action>, id: string)
    requires Runs(INIT, actions)
    ensures
      var s := Final(INIT, actions);
      (id in s.rows && s.rows[id].payloadHash.Some? && s.rows[id].receipt.None?)
      <==> (exists h :: HolderOf(s, h, id) && forall k :: HolderOf(s, k, id) ==> k == h)
  {
    RunKeepsInv(INIT, actions);
    var s := Final(INIT, actions);
    if id in s.rows && s.rows[id].payloadHash.Some? && s.rows[id].receipt.None? {
      var h :| HolderOf(s, h, id);
    }
    if h :| HolderOf(s, h, id) {
      assert HolderRow(s, s.handlers[h]);
    }
  }

  ghost predicate RowsLater(s: Table, t: Table) {
    forall id :: id in s ==>
      && id in t
      && t[id].requirements == s[id].requirements
      && t[id].expiresAt == s[id].expiresAt
      && (s[id].receipt.Some? ==> t[id].receipt == s[id].receipt && t[id].payloadHash == s[id].payloadHash)
  }

  ghost predicate HandlersLater(s: map<nat, Handler>, t: map<nat, Handler>) {
    forall h :: h in s ==>
      && h in t
      && t[h].id == s[h].id && t[h].hash == s[h].hash && t[h].accepted == s[h].accepted
      && (s[h].phase.Done? ==> t[h].phase == s[h].phase)
  }

  /** What a run can never take back: a challenge, a stored receipt, a settle call, a reply. */
  ghost predicate Later(s: State, t: State) {
    RowsLater(s.rows, t.rows) && s.calls <= t.calls && HandlersLater(s.handlers, t.handlers)
  }

  lemma StepKeepsRows(s: State, a: Action)
    requires Enabled(s, a)
    ensures RowsLater(s.rows, Next(s, a).rows)
  {
  }

  lemma StepKeepsHandlers(s: State, a: Action)
    requires Enabled(s, a)
    ensures HandlersLater(s.handlers, Next(s, a).handlers) && s.calls <= Next(s, a).calls
  {
  }

  lemma StepIsLater(s: State, a: Action)
    requires Enabled(s, a)
    ensures Later(s, Next(s, a))
  {
    StepKeepsRows(s, a);
    StepKeepsHandlers(s, a);
  }

  lemma {:induction false} RunIsLater(s: State, actions: seq<Action>)
    requires Runs(s, actions)
    ensures Later(s, Final(s, actions))
    decreases |actions|
  {
    if actions != [] {
      var m := Next(s, actions[0]);
      StepIsLater(s, actions[0]);
      RunIsLater(m, actions[1..]);
      LaterComposes(s, m, Final(m, actions[1..]));
    }
  }

  lemma LaterComposes(s: State, m: State, t: State)
    requires Later(s, m) && Later(m, t)
    ensures Later(s, t)
  {
  }

  /** Once settle was called for a challenge its claim is never given up, whatever the reply: no resubmission. */
  lemma CalledClaimIsForever(s: State, actions: seq<Action>, c: SettleCall)
    requires Inv(s) && Runs(s, actions) && c in s.calls
    ensures
      var t := Final(s, actions);
      && c.id in t.rows && t.rows[c.id].payloadHash == Some(c.hash)
      && forall d :: d in t.calls && d.id == c.id ==> d == c
  {
    RunIsLater(s, actions);
    RunKeepsInv(s, actions);
    var t := Final(s, actions);
    assert c in t.calls;
    assert CallOk(t, c);
  }

  /** Only the one holder of a claim, still before its settle call, can give the claim back. */
  lemma OnlyTheHolderReleases(s: State, a: Action, id: string)
    requires Inv(s) && Enabled(s, a)
    requires id in s.rows && s.rows[id].payloadHash.Some? && Next(s, a).rows[id].payloadHash.None?
    ensures a.Release? && HolderOf(s, a.h, id)
    ensures forall k :: HolderOf(s, k, id) ==> k == a.h
    ensures forall c :: c in s.calls ==> c.id != id
  {
    assert HolderRow(s, s.handlers[a.h]);
    assert HolderOf(s, a.h, id);
    NoCallYet(s, a.h);
  }
}
