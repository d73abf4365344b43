/** What the operations already running on one attempt can do to it: leave the graph exactly when it is contended. */
module SdkContention {
  import opened Wrappers
  import opened X402
  import opened EvidenceStore
  import opened SdkProtocol
  import opened SdkLifecycle
  import Amounts

  /** The running operations of one attempt go on; nothing else moves and nothing new starts. */
  ghost predicate OwnRun(s: State, actions: seq<Action>, k: nat)
    decreases |actions|
  {
    actions == [] || (
      && Enabled(s, actions[0]) && IsOpStep(actions[0]) && Target(actions[0].id, s.ops[actions[0].id]) == k
      && OwnRun(Next(s, actions[0]), actions[1..], k))
  }

  ghost predicate LeavesGraph(s: State, actions: seq<Action>, k: nat)
    requires OwnRun(s, actions, k)
    decreases |actions|
  {
    actions != [] &&
    (!FollowsAt(s, Next(s, actions[0]), k) || LeavesGraph(Next(s, actions[0]), actions[1..], k))
  }

  ghost predicate CanLeave(s: State, k: nat) {
    exists actions :: OwnRun(s, actions, k) && LeavesGraph(s, actions, k)
  }

  lemma RecordableKept(s: State, t: State, id: nat, k: nat, receipt: Receipt)
    requires Moves(s, t, id, k)
    ensures Recordable(t, k, receipt) <==> Recordable(s, k, receipt)
  {
    assert forall j :: j != k ==> (j in t.db.attempts <==> j in s.db.attempts);
  }

  lemma ReconcileStaysCalm(s: State, a: Action, k: nat)
    requires KeysMatch(s.db) && Enabled(s, a) && IsOpStep(a) && OpOk(s.db, a.id, s.ops[a.id])
    requires !PaysFor(s, a.id) && s.ops[a.id].job.attemptId == k && !Contended(s, k)
    ensures !Contended(Next(s, a), k)
  {
    var t := Next(s, a);
    ReconcileWrites(s, a);
    assert Polled(s, k);
    if Open(t, k) && t.ops[k].phase.Unlocking? {
      RecordableKept(s, t, a.id, k, t.ops[k].phase.receipt);
    }
  }

  lemma OwnStepStaysCalm(s: State, a: Action, k: nat)
    requires KeysMatch(s.db) && OpsOk(s) && TrackedAt(s, k) && !Contended(s, k)
    requires Enabled(s, a) && IsOpStep(a) && Target(a.id, s.ops[a.id]) == k
    ensures !Contended(Next(s, a), k)
  {
    assert OpOk(s.db, a.id, s.ops[a.id]);
    if PaysFor(s, a.id) {
      PaymentStaysClear(s, a);
      ClearIsCalm(Next(s, a), k);
    } else {
      ReconcileStaysCalm(s, a, k);
    }
  }

  lemma {:induction false} CalmOwnRunFollows(s: State, actions: seq<Action>, k: nat)
    requires Inv(s) && TrackedAt(s, k) && !Contended(s, k) && OwnRun(s, actions, k)
    ensures !LeavesGraph(s, actions, k)
    decreases |actions|
  {
    if actions != [] {
      var a := actions[0];
      StepKeepsInv(s, a);
      StepAt(s, a, k);
      OwnStepStaysCalm(s, a, k);
      CalmOwnRunFollows(Next(s, a), actions[1..], k);
    }
  }

  ghost predicate Longer(attempts: map<nat, Attempt>, n: nat) {
    forall k :: k in attempts && attempts[k].txHash.Some? ==> |attempts[k].txHash.value| < n
  }

  lemma {:induction false} SomeLonger(attempts: map<nat, Attempt>) returns (n: nat)
    ensures Longer(attempts, n)
    decreases |attempts|
  {
    if |attempts| == 0 {
      n := 0;
    } else {
      var k :| k in attempts;
      var rest := attempts - {k};
      var m := SomeLonger(rest);
      n := m + |attempts[k].txHash.GetOr("")| + 1;
      forall j | j in attempts && attempts[j].txHash.Some? ensures |attempts[j].txHash.value| < n {
        assert j != k ==> j in rest && rest[j] == attempts[j];
      }
    }
  }

  /** A receipt no attempt carries yet. */
  lemma NewReceipt(s: State) returns (receipt: Receipt)
    ensures receipt.success
    ensures forall j :: j in s.db.attempts ==> s.db.attempts[j].txHash != Some(receipt.transaction)
  {
    var n := SomeLonger(s.db.attempts);
    receipt := Receipt(true, seq(n, i => '0'), "", "", "", "", "", "");
  }

  /** A write of an existing attempt with a transaction nobody else carries, or none, succeeds. */
  lemma PutWrites(s: State, id: nat, a: Attempt, phase: Phase)
    requires id in s.ops && a.identity.attemptId in s.db.attempts && !TxHashTaken(s.db.attempts, a)
    ensures RowState(Put(s, id, a, phase), a.identity.attemptId) == Some(a.state)
  {
  }

  /** The waiting reconciliation answers first: its snapshot, now settled, goes over whatever the row is. */
  lemma Overtake(s: State, r: nat, k: nat) returns (a: Action)
    requires Inv(s) && PaysFor(s, k) && IsPolling(s, r, k)
    ensures Enabled(s, a) && IsOpStep(a) && Target(a.id, s.ops[a.id]) == k && a.id == r
    ensures Moves(s, Next(s, a), r, k) && RowState(Next(s, a), k) == Some(SETTLED)
    ensures Next(s, a).ops[k] == s.ops[k]
  {
    assert OpOk(s.db, r, s.ops[r]);
    var receipt := NewReceipt(s);
    a := StatusReturns(r, Some(receipt));
    StatusMoves(s, r, Some(receipt));
    PutWrites(s, r, WithEvidence(s.ops[r].phase.snapshot, SETTLED, receipt), Finished);
  }

  lemma ReadingUnlocks(s: State, k: nat)
    requires OpsOk(s) && Open(s, k) && s.ops[k].phase.Unlocking?
    ensures Enabled(s, ReadBody(k)) && RowState(Next(s, ReadBody(k)), k) == Some(UNLOCKED)
  {
    var op := s.ops[k];
    assert OpOk(s.db, k, op);
    PutWrites(s, k, WithEvidence(Fresh(k, op.job), SETTLED, op.phase.receipt).(state := UNLOCKED), Finished);
  }

  lemma LosingTheReplyForgets(s: State, k: nat) returns (a: Action)
    requires OpsOk(s) && PaysFor(s, k) && s.ops[k].phase.Submitted?
    ensures Enabled(s, a) && IsOpStep(a) && a.id == k && RowState(Next(s, a), k) == Some(UNKNOWN)
  {
    assert OpOk(s.db, k, s.ops[k]);
    PutWrites(s, k, Unknown(Fresh(k, s.ops[k].job)), Finished);
    a := if s.ops[k].job.kind.Pay? then SettleReturns(k, SettleReply.SettleThrew) else Unlock(k, NetworkError);
  }

  /** The overtaken payment writes its own snapshot over the settled row. */
  lemma Overwrite(s: State, k: nat) returns (a: Action)
    requires OpsOk(s) && Open(s, k) && RowState(s, k) == Some(SETTLED)
    ensures Enabled(s, a) && IsOpStep(a) && a.id == k
    ensures !FollowsAt(s, Next(s, a), k)
  {
    if s.ops[k].phase.Unlocking? {
      a := ReadBody(k);
      ReadingUnlocks(s, k);
    } else {
      a := LosingTheReplyForgets(s, k);
    }
  }

  lemma LeavesAtOnce(s: State, a: Action, k: nat)
    requires Enabled(s, a) && IsOpStep(a) && Target(a.id, s.ops[a.id]) == k && !FollowsAt(s, Next(s, a), k)
    ensures CanLeave(s, k)
  {
    assert [a][1..] == [];
    assert OwnRun(s, [a], k) && LeavesGraph(s, [a], k);
  }

  lemma LeavesLater(s: State, a: Action, k: nat)
    requires Enabled(s, a) && IsOpStep(a) && Target(a.id, s.ops[a.id]) == k && CanLeave(Next(s, a), k)
    ensures CanLeave(s, k)
  {
    var rest :| OwnRun(Next(s, a), rest, k) && LeavesGraph(Next(s, a), rest, k);
    var actions := [a] + rest;
    assert actions[1..] == rest;
    assert OwnRun(s, actions, k) && LeavesGraph(s, actions, k);
  }

  lemma SettledCanLeave(s: State, k: nat)
    requires Inv(s) && Open(s, k) && RowState(s, k) == Some(SETTLED)
    ensures CanLeave(s, k)
  {
    var a := Overwrite(s, k);
    LeavesAtOnce(s, a, k);
  }

  lemma OpenKept(s: State, t: State, r: nat, k: nat)
    requires Open(s, k) && Moves(s, t, r, k) && t.ops[k] == s.ops[k]
    ensures Open(t, k)
  {
    if s.ops[k].phase.Unlocking? {
      RecordableKept(s, t, r, k, s.ops[k].phase.receipt);
    }
  }

  lemma ContendedCanLeave(s: State, k: nat)
    requires Inv(s) && Contended(s, k)
    ensures CanLeave(s, k)
  {
    if RowState(s, k) == Some(SETTLED) {
      SettledCanLeave(s, k);
    } else {
      var r :| IsPolling(s, r, k);
      var a := Overtake(s, r, k);
      OpenKept(s, Next(s, a), r, k);
      StepKeepsInv(s, a);
      SettledCanLeave(Next(s, a), k);
      LeavesLater(s, a, k);
    }
  }

  /**
    Contention is the exact condition: the operations already running on an attempt can take it off the graph if and
    only if it is contended. For a payment submitted through the facilitator that is SETTLED to UNKNOWN, through the
    merchant also SETTLED to BLOCKED, and for one reading a success SETTLED to UNLOCKED.
   */
  lemma CanLeaveIffContended(s: State, k: nat)
    requires Tracked(s)
    ensures CanLeave(s, k) <==> Contended(s, k)
  {
    if Contended(s, k) {
      ContendedCanLeave(s, k);
    } else {
      assert TrackedAt(s, k);
      forall actions | OwnRun(s, actions, k) ensures !LeavesGraph(s, actions, k) {
        CalmOwnRunFollows(s, actions, k);
      }
    }
  }

  /** A careless caller: starting a reconciliation makes leaving possible exactly when the payment is open. */
  lemma ReconcileSafeIffNotOpen(s: State, r: nat, k: nat)
    requires Tracked(s) && Calm(s) && Enabled(s, StartReconcile(r, k))
    ensures CanLeave(Next(s, StartReconcile(r, k)), k) <==> Open(s, k)
  {
    StepFollowsGraph(s, StartReconcile(r, k));
    CanLeaveIffContended(Next(s, StartReconcile(r, k)), k);
    ReconcileContendsIffOpen(s, r, k);
  }

  lemma BlockKeepsPoll(s: State, r: nat, k: nat, a: Attempt)
    requires PaysFor(s, k) && IsPolling(s, r, k) && k in s.db.attempts
    requires a.identity.attemptId == k && a.state == BLOCKED && a.txHash.None?
    ensures
      var t := Put(s, k, a, Finished);
      RowState(t, k) == Some(BLOCKED) && PaysFor(t, k) && IsPolling(t, r, k)
  {
    PutMoves(s, k, a, Finished);
    PutWrites(s, k, a, Finished);
  }

  lemma RefusalBlocks(s: State, r: nat, k: nat)
    requires OpsOk(s) && InPhase(s, k, Fetch) && s.ops[k].phase.Submitted? && IsPolling(s, r, k)
    ensures
      var t := AfterUnlock(s, k, NoReceipt(OtherError));
      RowState(t, k) == Some(BLOCKED) && PaysFor(t, k) && IsPolling(t, r, k)
  {
    assert OpOk(s.db, k, s.ops[k]);
    BlockKeepsPoll(s, r, k, Blocked(Fresh(k, s.ops[k].job), RESOURCE_UNLOCK_FAILED));
  }

  /**
    In particular, whenever a fetch is waiting for its paid reply while its attempt is polled, a refusal blocks the
    attempt and the poll's stale snapshot then settles it.
   */
  lemma OverlapUndoesBlocked(s: State, r: nat, k: nat) returns (settled: Action)
    requires Inv(s) && InPhase(s, k, Fetch) && s.ops[k].phase.Submitted? && IsPolling(s, r, k)
    ensures
      var t := Next(s, Unlock(k, NoReceipt(OtherError)));
      && RowState(t, k) == Some(BLOCKED)
      && Enabled(t, settled) && RowState(Next(t, settled), k) == Some(SETTLED)
  {
    RefusalBlocks(s, r, k);
    StepKeepsInv(s, Unlock(k, NoReceipt(OtherError)));
    settled := Overtake(Next(s, Unlock(k, NoReceipt(OtherError))), r, k);
  }

  // ---- Contention is reachable ----

  const SAMPLE_ALLOWANCE :=
    Allowance(AllowanceIdentity("1", "stellar:testnet", "C", "USDC", "G", 1000, 720, ["M"], 900, 1, None, 0),
              "agent", 0, None, ACTIVE)
  const SAMPLE_REQ := Requirements("exact", "stellar:testnet", "5", "M", 60, "USDC", Some("c1"), true)
  const SAMPLE_JOB := Payment(Fetch, "1", "http://merchant/premium", SAMPLE_REQ, 0)

  /** A fetch from its allowance to its paid request in flight. */
  const SAMPLE_ACTIONS := [
    WriteAllowance(SAMPLE_ALLOWANCE), StartPayment(0, Fetch, "1", "http://merchant/premium", SAMPLE_REQ, 0), Insert(0),
    ReadAllowance(0), Refresh(0, Chain(500, Some(0))), Decide(0, 500), Sign(0, Built), Submit(0)]

  function SampleRow(attempt: AttemptState, decision: Decision): map<nat, Attempt> {
    map[0 := Fresh(0, SAMPLE_JOB).(state := attempt, decision := decision)]
  }

  function SampleAt(attempts: map<nat, Attempt>, phase: Phase, built: seq<nat>, sent: seq<nat>): State {
    State(Db(map["1" := SAMPLE_ALLOWANCE], attempts), map[0 := Op(SAMPLE_JOB, phase)], built, sent)
  }

  function SampleState(i: nat): State {
    match i
    case 0 => INIT
    case 1 => State(Db(map["1" := SAMPLE_ALLOWANCE], map[]), map[], [], [])
    case 2 => SampleAt(map[], Reserving, [], [])
    case 3 => SampleAt(SampleRow(CREATED, PENDING), Reading, [], [])
    case 4 => SampleAt(SampleRow(CREATED, PENDING), Refreshing(SAMPLE_ALLOWANCE), [], [])
    case 5 => SampleAt(SampleRow(CREATED, PENDING), Deciding(SAMPLE_ALLOWANCE), [], [])
    case 6 => SampleAt(SampleRow(VALIDATED, ALLOW), Signing(SAMPLE_ALLOWANCE), [], [])
    case 7 => SampleAt(SampleRow(SIGNED, ALLOW), Signed(SAMPLE_ALLOWANCE), [0], [])
    case _ => SampleAt(SampleRow(SUBMITTED, PENDING), Submitted(SAMPLE_ALLOWANCE), [0], [0])
  }

  ghost predicate SampleSteps(i: nat)
    requires i < |SAMPLE_ACTIONS|
  {
    Enabled(SampleState(i), SAMPLE_ACTIONS[i]) && Next(SampleState(i), SAMPLE_ACTIONS[i]) == SampleState(i + 1)
  }

  lemma SampleStarts(i: nat)
    requires i < 5
    ensures SampleSteps(i)
  {
  }

  lemma SampleGoesOn(i: nat)
    requires 5 <= i < |SAMPLE_ACTIONS|
    ensures SampleSteps(i)
  {
    assert Amounts.ParseAtomicAmount("5") == Ok(5);
  }

  lemma {:induction false} SampleRun(i: nat)
    requires i <= |SAMPLE_ACTIONS|
    ensures CarefulRun(SampleState(i), SAMPLE_ACTIONS[i..]) && Runs(SampleState(i), SAMPLE_ACTIONS[i..])
    ensures Final(SampleState(i), SAMPLE_ACTIONS[i..]) == SampleState(|SAMPLE_ACTIONS|)
    decreases |SAMPLE_ACTIONS| - i
  {
    if i < |SAMPLE_ACTIONS| {
      if i < 5 {
        SampleStarts(i);
      } else {
        SampleGoesOn(i);
      }
      SampleRun(i + 1);
      assert SAMPLE_ACTIONS[i..][1..] == SAMPLE_ACTIONS[i + 1..];
    }
  }

  /** A careful run ends in an open payment, and one careless reconciliation there lets the attempt leave the graph. */
  lemma ContentionIsReachable()
    ensures CarefulRun(INIT, SAMPLE_ACTIONS) && Runs(INIT, SAMPLE_ACTIONS)
    ensures Enabled(Final(INIT, SAMPLE_ACTIONS), StartReconcile(1, 0))
    ensures CanLeave(Next(Final(INIT, SAMPLE_ACTIONS), StartReconcile(1, 0)), 0)
  {
    SampleRun(0);
    assert SAMPLE_ACTIONS[0..] == SAMPLE_ACTIONS;
    CarefulRunsAreCalm(INIT, SAMPLE_ACTIONS);
    RunStaysTracked(INIT, SAMPLE_ACTIONS);
    SampleIsOpen();
    ReconcileSafeIffNotOpen(SampleState(|SAMPLE_ACTIONS|), 1, 0);
  }

  lemma SampleIsOpen()
    ensures Open(SampleState(8), 0) && Calm(SampleState(8))
    ensures Enabled(SampleState(8), StartReconcile(1, 0))
  {
    forall k ensures !Contended(SampleState(8), k) {
      assert PaysFor(SampleState(8), k) ==> k == 0;
    }
  }
}
