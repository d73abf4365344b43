/** The SDK's evidence tables: upserts that touch only mutable columns, under uniqueness and foreign-key constraints. */
module EvidenceStore {
  import opened Wrappers
  import opened Hashing
  import opened X402

  datatype AllowanceStatus = DRAFT | ACTIVE | EXHAUSTED | EXPIRED | REVOKED | ERROR

  /** The columns an allowance keeps from its insertion on. */
  datatype AllowanceIdentity = AllowanceIdentity(
    allowanceId: string,
    network: string,
    treasuryContract: string,
    assetContract: string,
    delegatedSigner: string,
    maxSpendAtomic: int,
    windowLedgers: int,
    allowedRecipients: seq<string>,
    validUntilLedger: int,
    contextRuleId: int,
    createTxHash: Option<string>,
    createdAt: int)

  datatype Allowance = Allowance(
    identity: AllowanceIdentity,
    title: string,
    spentAtomic: int,
    revokeTxHash: Option<string>,
    status: AllowanceStatus)

  datatype AttemptState = CREATED | VALIDATED | SIGNED | SUBMITTED | SETTLED | UNLOCKED | BLOCKED | UNKNOWN

  datatype Decision = ALLOW | BLOCK | PENDING | FAULT

  datatype Reason =
    | NETWORK_MISMATCH
    | ASSET_NOT_ALLOWED
    | RECIPIENT_NOT_ALLOWED
    | BUDGET_EXCEEDED
    | ALLOWANCE_EXPIRED
    | ALLOWANCE_REVOKED
    | ALLOWANCE_NOT_ACTIVE
    | SIGNER_NOT_AUTHORIZED
    | FACILITATOR_REJECTED
    | SETTLEMENT_UNKNOWN
    | RECEIPT_MISMATCH
    | RESOURCE_UNLOCK_FAILED

  /** The challenge ID, or the digest of the requirements when they carry none. */
  datatype Reference = Challenge(id: string) | Hashed(digest: Digest<Requirements>)

  /** The columns an attempt keeps from its insertion on. */
  datatype AttemptIdentity = AttemptIdentity(
    attemptId: nat,
    allowanceId: string,
    url: string,
    reference: Reference,
    challengeHash: Digest<Requirements>,
    amountAtomic: string,
    payTo: string,
    assetContract: string,
    createdAt: int)

  datatype Attempt = Attempt(
    identity: AttemptIdentity,
    state: AttemptState,
    decision: Decision,
    reasonCode: Option<Reason>,
    txHash: Option<string>,
    receiptHash: Option<Digest<Receipt>>,
    receipt: Option<Receipt>)

  datatype Db = Db(allowances: map<string, Allowance>, attempts: map<nat, Attempt>)

  predicate TxHashTaken(attempts: map<nat, Attempt>, a: Attempt) {
    && a.txHash.Some?
    && exists k :: k in attempts && k != a.identity.attemptId && attempts[k].txHash == a.txHash
  }

  predicate SameReference(a: AttemptIdentity, b: AttemptIdentity) {
    a.allowanceId == b.allowanceId && a.reference == b.reference
  }

  predicate ReferenceTaken(attempts: map<nat, Attempt>, a: Attempt) {
    exists k :: k in attempts && SameReference(attempts[k].identity, a.identity)
  }

  predicate SameRule(a: AllowanceIdentity, b: AllowanceIdentity) {
    a.network == b.network && a.treasuryContract == b.treasuryContract && a.contextRuleId == b.contextRuleId
  }

  predicate RuleTaken(allowances: map<string, Allowance>, a: Allowance) {
    exists k :: k in allowances && SameRule(allowances[k].identity, a.identity)
  }

  /** The attempts upsert; None is a constraint violation, which changes nothing. */
  function PutAttempt(db: Db, a: Attempt): Option<Db> {
    var id := a.identity.attemptId;
    if TxHashTaken(db.attempts, a) then None
    else if id in db.attempts then Some(db.(attempts := db.attempts[id := a.(identity := db.attempts[id].identity)]))
    else if ReferenceTaken(db.attempts, a) || a.identity.allowanceId !in db.allowances then None
    else Some(db.(attempts := db.attempts[id := a]))
  }

  function PutAllowance(db: Db, a: Allowance): Option<Db> {
    var id := a.identity.allowanceId;
    if id in db.allowances then
      Some(db.(allowances := db.allowances[id := a.(identity := db.allowances[id].identity)]))
    else if RuleTaken(db.allowances, a) then None
    else Some(db.(allowances := db.allowances[id := a]))
  }

  ghost predicate KeysMatch(db: Db) {
    && (forall k :: k in db.allowances ==> db.allowances[k].identity.allowanceId == k)
    && (forall k :: k in db.attempts ==> db.attempts[k].identity.attemptId == k)
  }

  ghost predicate ForeignKeys(db: Db) {
    forall k :: k in db.attempts ==> db.attempts[k].identity.allowanceId in db.allowances
  }

  ghost predicate UniqueReferences(db: Db) {
    forall j, k | j in db.attempts && k in db.attempts ::
      SameReference(db.attempts[j].identity, db.attempts[k].identity) ==> j == k
  }

  ghost predicate UniqueTxHashes(db: Db) {
    forall j, k | j in db.attempts && k in db.attempts ::
      db.attempts[j].txHash.Some? && db.attempts[j].txHash == db.attempts[k].txHash ==> j == k
  }

  ghost predicate UniqueRules(db: Db) {
    forall j, k | j in db.allowances && k in db.allowances ::
      SameRule(db.allowances[j].identity, db.allowances[k].identity) ==> j == k
  }

  /** What the constraints keep true of the tables. */
  ghost predicate Consistent(db: Db) {
    KeysMatch(db) && ForeignKeys(db) && UniqueReferences(db) && UniqueTxHashes(db) && UniqueRules(db)
  }

  /** Rows are never deleted and keep their identity columns. */
  ghost predicate Extends(db: Db, later: Db) {
    && (forall k :: k in db.allowances ==>
          k in later.allowances && later.allowances[k].identity == db.allowances[k].identity)
    && (forall k :: k in db.attempts ==>
          k in later.attempts && later.attempts[k].identity == db.attempts[k].identity)
  }

  lemma PutAttemptKeepsReferences(db: Db, a: Attempt)
    requires UniqueReferences(db) && PutAttempt(db, a).Some?
    ensures UniqueReferences(PutAttempt(db, a).value)
  {
  }

  lemma PutAttemptKeepsTxHashes(db: Db, a: Attempt)
    requires UniqueTxHashes(db) && PutAttempt(db, a).Some?
    ensures UniqueTxHashes(PutAttempt(db, a).value)
  {
  }

  lemma PutAttemptKeeps(db: Db, a: Attempt)
    requires Consistent(db) && PutAttempt(db, a).Some?
    ensures Consistent(PutAttempt(db, a).value) && Extends(db, PutAttempt(db, a).value)
  {
    PutAttemptKeepsReferences(db, a);
    PutAttemptKeepsTxHashes(db, a);
  }

  lemma PutAllowanceKeeps(db: Db, a: Allowance)
    requires Consistent(db) && PutAllowance(db, a).Some?
    ensures Consistent(PutAllowance(db, a).value) && Extends(db, PutAllowance(db, a).value)
  {
  }

  class SqliteEvidenceStore {
    var db: Db

    constructor ()
      ensures db == Db(map[], map[])
    {
      db := Db(map[], map[]);
    }

    method PutAllowanceRow(record: Allowance) returns (written: bool)
      requires Consistent(db)
      modifies this
      ensures Consistent(db) && Extends(old(db), db)
      ensures written <==> PutAllowance(old(db), record).Some?
      ensures db == if written then PutAllowance(old(db), record).value else old(db)
    {
      var id := record.identity.allowanceId;
      written := id in db.allowances || !RuleTaken(db.allowances, record);
      if written {
        PutAllowanceKeeps(db, record);
        var row := if id in db.allowances then record.(identity := db.allowances[id].identity) else record;
        db := db.(allowances := db.allowances[id := row]);
      }
    }

    method PutAttemptRow(record: Attempt) returns (written: bool)
      requires Consistent(db)
      modifies this
      ensures Consistent(db) && Extends(old(db), db)
      ensures written <==> PutAttempt(old(db), record).Some?
      ensures db == if written then PutAttempt(old(db), record).value else old(db)
    {
      var id := record.identity.attemptId;
      var stored := id in db.attempts;
      written := !TxHashTaken(db.attempts, record)
        && (stored || (!ReferenceTaken(db.attempts, record) && record.identity.allowanceId in db.allowances));
      if written {
        PutAttemptKeeps(db, record);
        var row := if stored then record.(identity := db.attempts[id].identity) else record;
        db := db.(attempts := db.attempts[id := row]);
      }
    }

    /** The uniqueness constraint makes this lookup unambiguous. */
    method FindAttempt(allowanceId: string, reference: Reference) returns (row: Option<Attempt>)
      requires Consistent(db)
      ensures row.Some? ==>
                && row.value.identity.attemptId in db.attempts
                && row.value == db.attempts[row.value.identity.attemptId]
                && row.value.identity.allowanceId == allowanceId && row.value.identity.reference == reference
      ensures forall k | k in db.attempts ::
                db.attempts[k].identity.allowanceId == allowanceId && db.attempts[k].identity.reference == reference
                ==> row == Some(db.attempts[k])
    {
      if k :| k in db.attempts && db.attempts[k].identity.allowanceId == allowanceId
              && db.attempts[k].identity.reference == reference {
        row := Some(db.attempts[k]);
      } else {
        row := None;
      }
    }
  }
}
