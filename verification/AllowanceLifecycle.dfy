/**
  Overlapping creations, refreshes and revocations of allowances: each reads its row, waits for the network, and
  writes its snapshot back. A revoked allowance stays revoked exactly while no stale write of it is waiting.
 */
module AllowanceLifecycle {
  import opened Wrappers
  import opened EvidenceStore
  import opened SdkProtocol

  datatype AllowancePhase =
    | Creating(record: Allowance)
    | Querying(snapshot: Allowance)
    | Revoking(snapshot: Allowance)
    | Idle

  datatype World = World(db: Db, pending: map<nat, AllowancePhase>)

  /** A revocation replies with its transaction, or throws. */
  datatype Step =
    | StartCreate(id: nat, record: Allowance)
    | CreateReplies(id: nat)
    | StartGet(id: nat, key: string)
    | ChainReplies(id: nat, chain: ChainReply)
    | StartRevoke(id: nat, key: string)
    | RevokeReplies(id: nat, transaction: Option<string>)

  predicate Possible(w: World, step: Step) {
    match step
    case StartCreate(id, record) => id !in w.pending && record.status == ACTIVE
    case CreateReplies(id) => id in w.pending && w.pending[id].Creating?
    case StartGet(id, _) => id !in w.pending
    case ChainReplies(id, _) => id in w.pending && w.pending[id].Querying?
    case StartRevoke(id, _) => id !in w.pending
    case RevokeReplies(id, _) => id in w.pending && w.pending[id].Revoking?
  }

  /** The row an operation starts from; a missing or revoked one ends it. */
  function Snapshot(w: World, key: string): Option<Allowance> {
    if key in w.db.allowances && w.db.allowances[key].status != REVOKED then Some(w.db.allowances[key]) else None
  }

  function Write(w: World, id: nat, record: Allowance): World {
    World(PutAllowance(w.db, record).GetOr(w.db), w.pending[id := Idle])
  }

  function Then(w: World, step: Step): World
    requires Possible(w, step)
  {
    match step
    case StartCreate(id, record) => w.(pending := w.pending[id := Creating(record)])
    case CreateReplies(id) => Write(w, id, w.pending[id].record)
    case StartGet(id, key) =>
      var row := Snapshot(w, key);
      w.(pending := w.pending[id := if row.Some? then Querying(row.value) else Idle])
    case ChainReplies(id, chain) => Write(w, id, Refreshed(w.pending[id].snapshot, chain))
    case StartRevoke(id, key) =>
      var row := Snapshot(w, key);
      w.(pending := w.pending[id := if row.Some? then Revoking(row.value) else Idle])
    case RevokeReplies(id, transaction) =>
      if transaction.None? then w.(pending := w.pending[id := Idle])
      else Write(w, id, w.pending[id].snapshot.(status := REVOKED, revokeTxHash := transaction))
  }

  ghost predicate Path(w: World, steps: seq<Step>)
    decreases |steps|
  {
    steps == [] || (Possible(w, steps[0]) && Path(Then(w, steps[0]), steps[1..]))
  }

  ghost function End(w: World, steps: seq<Step>): World
    requires Path(w, steps)
    decreases |steps|
  {
    if steps == [] then w else End(Then(w, steps[0]), steps[1..])
  }

  predicate Revoked(w: World, key: string) {
    key in w.db.allowances && w.db.allowances[key].status == REVOKED
  }

  /** The operation will write a status other than REVOKED over the key. */
  predicate IsStale(w: World, id: nat, key: string) {
    && id in w.pending
    && ((w.pending[id].Querying? && w.pending[id].snapshot.identity.allowanceId == key)
        || (w.pending[id].Creating? && w.pending[id].record.identity.allowanceId == key))
  }

  ghost predicate Stale(w: World, key: string) {
    exists id :: IsStale(w, id, key)
  }

  /** Keys agree with their rows, and a creation writes an active record. */
  ghost predicate Sound(w: World) {
    && Consistent(w.db)
    && forall id :: id in w.pending && w.pending[id].Creating? ==> w.pending[id].record.status == ACTIVE
  }

  predicate Recreates(step: Step, key: string) {
    step.StartCreate? && step.record.identity.allowanceId == key
  }

  lemma WriteSets(w: World, id: nat, record: Allowance, key: string)
    requires Sound(w)
    ensures Consistent(Write(w, id, record).db)
    ensures key in w.db.allowances && record.identity.allowanceId == key ==>
      key in Write(w, id, record).db.allowances && Write(w, id, record).db.allowances[key].status == record.status
    ensures key in w.db.allowances && record.identity.allowanceId != key ==>
      key in Write(w, id, record).db.allowances && Write(w, id, record).db.allowances[key] == w.db.allowances[key]
  {
    if PutAllowance(w.db, record).Some? {
      PutAllowanceKeeps(w.db, record);
    }
  }

  lemma StepStaysSound(w: World, step: Step)
    requires Sound(w) && Possible(w, step)
    ensures Sound(Then(w, step))
  {
    match step
    case CreateReplies(id) => WriteSets(w, id, w.pending[id].record, "");
    case ChainReplies(id, chain) => WriteSets(w, id, Refreshed(w.pending[id].snapshot, chain), "");
    case RevokeReplies(id, transaction) =>
      WriteSets(w, id, w.pending[id].snapshot.(status := REVOKED, revokeTxHash := transaction), "");
    case _ =>
  }

  lemma {:induction false} PathStaysSound(w: World, steps: seq<Step>)
    requires Sound(w) && Path(w, steps)
    ensures Sound(End(w, steps))
    decreases |steps|
  {
    if steps != [] {
      StepStaysSound(w, steps[0]);
      PathStaysSound(Then(w, steps[0]), steps[1..]);
    }
  }

  const EMPTY := World(Db(map[], map[]), map[])

  /** Over every path from the empty store the tables stay consistent and waiting creations active. */
  lemma ReachableIsSound(steps: seq<Step>)
    requires Path(EMPTY, steps)
    ensures Sound(End(EMPTY, steps))
  {
    PathStaysSound(EMPTY, steps);
  }

  lemma NoNewStale(w: World, step: Step, key: string)
    requires Sound(w) && Possible(w, step) && Revoked(w, key) && !Stale(w, key) && !Recreates(step, key)
    ensures !Stale(Then(w, step), key)
  {
    forall id ensures !IsStale(Then(w, step), id, key) {
      assert !IsStale(w, id, key);
    }
  }

  lemma StaysRevoked(w: World, step: Step, key: string)
    requires Sound(w) && Possible(w, step) && Revoked(w, key) && !Stale(w, key)
    ensures Revoked(Then(w, step), key)
  {
    match step
    case CreateReplies(id) =>
      assert !IsStale(w, id, key);
      WriteSets(w, id, w.pending[id].record, key);
    case ChainReplies(id, chain) =>
      assert !IsStale(w, id, key);
      WriteSets(w, id, Refreshed(w.pending[id].snapshot, chain), key);
    case RevokeReplies(id, transaction) =>
      WriteSets(w, id, w.pending[id].snapshot.(status := REVOKED, revokeTxHash := transaction), key);
    case _ =>
  }

  ghost predicate NeverRecreated(steps: seq<Step>, key: string) {
    forall i :: 0 <= i < |steps| ==> !Recreates(steps[i], key)
  }

  /** REVOKED is absorbing as long as no stale write of the allowance is waiting and it is not created again. */
  lemma {:induction false} RevokedAbsorbs(w: World, steps: seq<Step>, key: string)
    requires Sound(w) && Path(w, steps) && Revoked(w, key) && !Stale(w, key) && NeverRecreated(steps, key)
    ensures Revoked(End(w, steps), key)
    decreases |steps|
  {
    if steps != [] {
      StepStaysSound(w, steps[0]);
      StaysRevoked(w, steps[0], key);
      NoNewStale(w, steps[0], key);
      assert forall i :: 0 <= i < |steps| - 1 ==> steps[1..][i] == steps[i + 1];
      RevokedAbsorbs(Then(w, steps[0]), steps[1..], key);
    }
  }

  // ---- What each operation does by itself ----

  /** A refresh reads a stored allowance that is not revoked, asks the chain, and stores what it said; else it ends. */
  lemma GetOutcome(w: World, id: nat, key: string, chain: ChainReply)
    requires Sound(w) && id !in w.pending
    ensures Possible(w, StartGet(id, key))
    ensures
      var reading := Then(w, StartGet(id, key));
      && reading.db == w.db
      && if key in w.db.allowances && w.db.allowances[key].status != REVOKED then
           && Possible(reading, ChainReplies(id, chain))
           && Then(reading, ChainReplies(id, chain)).db
                == w.db.(allowances := w.db.allowances[key := Refreshed(w.db.allowances[key], chain)])
         else reading.pending == w.pending[id := Idle]
  {
  }

  /** A revocation marks a stored allowance with its transaction, and nothing else; a failed one changes nothing. */
  lemma RevokeOutcome(w: World, id: nat, key: string, transaction: string)
    requires Sound(w) && id !in w.pending
    ensures Possible(w, StartRevoke(id, key))
    ensures
      var started := Then(w, StartRevoke(id, key));
      && started.db == w.db
      && if key in w.db.allowances && w.db.allowances[key].status != REVOKED then
           && Possible(started, RevokeReplies(id, Some(transaction))) && Possible(started, RevokeReplies(id, None))
           && Then(started, RevokeReplies(id, None)).db == w.db
           && var after := Then(started, RevokeReplies(id, Some(transaction)));
              && Revoked(after, key)
              && after.db.allowances[key] ==
                   w.db.allowances[key].(status := REVOKED, revokeTxHash := Some(transaction))
              && after.db.attempts == w.db.attempts
              && (forall k :: k in after.db.allowances <==> k in w.db.allowances)
              && (forall k :: k in w.db.allowances && k != key ==> after.db.allowances[k] == w.db.allowances[k])
         else started.pending == w.pending[id := Idle]
  {
  }

  /**
    A created allowance is stored once the chain has it, unless another one has its rule; over a stored one of its
    own identifier only the mutable columns are written.
   */
  lemma CreateOutcome(w: World, id: nat, record: Allowance)
    requires Sound(w) && id !in w.pending && record.status == ACTIVE
    ensures Possible(w, StartCreate(id, record))
    ensures
      var started := Then(w, StartCreate(id, record));
      && started.db == w.db && Possible(started, CreateReplies(id))
      && Then(started, CreateReplies(id)).db ==
           if record.identity.allowanceId in w.db.allowances then
             w.db.(allowances := w.db.allowances[record.identity.allowanceId :=
               record.(identity := w.db.allowances[record.identity.allowanceId].identity)])
           else if exists k :: && k in w.db.allowances && w.db.allowances[k].identity.network == record.identity.network
                          && w.db.allowances[k].identity.treasuryContract == record.identity.treasuryContract
                          && w.db.allowances[k].identity.contextRuleId == record.identity.contextRuleId
           then w.db
           else w.db.(allowances := w.db.allowances[record.identity.allowanceId := record])
  {
  }

  /** A waiting refresh or creation of a revoked allowance can bring it back, whatever the chain answers. */
  lemma StaleRevives(w: World, id: nat, key: string, chain: ChainReply) returns (step: Step)
    requires Sound(w) && Revoked(w, key) && IsStale(w, id, key)
    ensures Possible(w, step) && !Recreates(step, key) && !Revoked(Then(w, step), key)
  {
    if w.pending[id].Creating? {
      step := CreateReplies(id);
      WriteSets(w, id, w.pending[id].record, key);
    } else {
      step := ChainReplies(id, chain);
      WriteSets(w, id, Refreshed(w.pending[id].snapshot, chain), key);
    }
  }

  /** A revoked allowance can come back without being created again if and only if a stale write of it is waiting. */
  lemma CanReviveIffStale(w: World, key: string)
    requires Sound(w) && Revoked(w, key)
    ensures (exists steps :: Path(w, steps) && NeverRecreated(steps, key) && !Revoked(End(w, steps), key))
      <==> Stale(w, key)
  {
    if Stale(w, key) {
      var id :| IsStale(w, id, key);
      var step := StaleRevives(w, id, key, ChainFailed);
      assert [step][1..] == [] && Path(Then(w, step), []);
      assert Path(w, [step]) && End(w, [step]) == Then(w, step);
      assert NeverRecreated([step], key);
    } else {
      forall steps | Path(w, steps) && NeverRecreated(steps, key) ensures Revoked(End(w, steps), key) {
        RevokedAbsorbs(w, steps, key);
      }
    }
  }

  /** A revocation that overlaps no refresh and no creation of its allowance is final. */
  lemma RevocationAloneIsFinal(w: World, id: nat, transaction: string, steps: seq<Step>, key: string)
    requires Sound(w) && Possible(w, RevokeReplies(id, Some(transaction)))
    requires w.pending[id].snapshot.identity.allowanceId == key && key in w.db.allowances && !Stale(w, key)
    requires Path(Then(w, RevokeReplies(id, Some(transaction))), steps) && NeverRecreated(steps, key)
    ensures Revoked(End(Then(w, RevokeReplies(id, Some(transaction))), steps), key)
  {
    var step := RevokeReplies(id, Some(transaction));
    StepStaysSound(w, step);
    WriteSets(w, id, w.pending[id].snapshot.(status := REVOKED, revokeTxHash := Some(transaction)), key);
    forall i ensures !IsStale(Then(w, step), i, key) {
      assert !IsStale(w, i, key);
    }
    RevokedAbsorbs(Then(w, step), steps, key);
  }
}
