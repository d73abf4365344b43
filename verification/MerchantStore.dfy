/** The merchant's challenge table: one row per challenge, claimed and settled by conditional updates. */
module MerchantStore {
  import opened Wrappers
  import opened X402

  /** A row with its nullable columns. */
  datatype Row = Row(
    requirements: Requirements,
    expiresAt: int,
    payloadHash: Option<string>,
    receipt: Option<Receipt>)

  type Table = map<string, Row>

  datatype Claim = Acquired | Pending | Conflict | Settled(receipt: Receipt)

  /** Reading a row: an empty hash column reads as absent. */
  function Read(row: Row): Row {
    if row.payloadHash == Some("") then row.(payloadHash := None) else row
  }

  function ClaimResult(t: Table, id: string, hash: string): Claim {
    if id !in t then Conflict
    else
      var row := Read(t[id]);
      if row.receipt.Some? then
        if row.payloadHash == Some(hash) then Settled(row.receipt.value) else Conflict
      else if row.payloadHash.Some? then
        if row.payloadHash == Some(hash) then Pending else Conflict
      else if t[id].payloadHash.None? then Acquired
      else Conflict
  }

  function ClaimTable(t: Table, id: string, hash: string): Table {
    if id in t && t[id].payloadHash.None? && t[id].receipt.None?
    then t[id := t[id].(payloadHash := Some(hash))]
    else t
  }

  function ReleaseTable(t: Table, id: string, hash: string): Table {
    if id in t && t[id].payloadHash == Some(hash) && t[id].receipt.None?
    then t[id := t[id].(payloadHash := None)]
    else t
  }

  function SettleTable(t: Table, id: string, hash: string, receipt: Receipt): Table {
    if id in t && t[id].payloadHash == Some(hash) && t[id].receipt.None?
    then t[id := t[id].(receipt := Some(receipt))]
    else t
  }

  class DemoPaymentStore {
    var rows: Table

    constructor ()
      ensures rows == map[]
    {
      rows := map[];
    }

    /** INSERT under a primary key: an existing challenge is refused and left alone. */
    method Create(id: string, requirements: Requirements, expiresAt: int) returns (inserted: bool)
      modifies this
      ensures inserted <==> id !in old(rows)
      ensures rows == if inserted then old(rows)[id := Row(requirements, expiresAt, None, None)] else old(rows)
    {
      inserted := id !in rows;
      if inserted {
        rows := rows[id := Row(requirements, expiresAt, None, None)];
      }
    }

    /** A stored row with its terms and receipt; a hash it reports is the stored one and never empty. */
    method Get(id: string) returns (row: Option<Row>)
      ensures row.Some? <==> id in rows
      ensures row.Some? ==>
                && row.value.requirements == rows[id].requirements && row.value.expiresAt == rows[id].expiresAt
                && row.value.receipt == rows[id].receipt
                && row.value.payloadHash != Some("")
                && (row.value.payloadHash == rows[id].payloadHash
                    || (row.value.payloadHash.None? && rows[id].payloadHash == Some("")))
    {
      row := if id in rows then Some(Read(rows[id])) else None;
    }

    /** One transaction: read the row, then the conditional update of an unclaimed one. */
    method ClaimChallenge(id: string, hash: string) returns (claim: Claim)
      modifies this
      ensures claim == ClaimResult(old(rows), id, hash)
      ensures rows == ClaimTable(old(rows), id, hash)
    {
      var challenge := Get(id);
      if challenge.None? {
        return Conflict;
      }
      if challenge.value.receipt.Some? {
        if challenge.value.payloadHash == Some(hash) {
          return Settled(challenge.value.receipt.value);
        }
        return Conflict;
      }
      if challenge.value.payloadHash.Some? {
        return if challenge.value.payloadHash == Some(hash) then Pending else Conflict;
      }
      var changed := rows[id].payloadHash.None? && rows[id].receipt.None?;
      if changed {
        rows := rows[id := rows[id].(payloadHash := Some(hash))];
      }
      claim := if changed then Acquired else Conflict;
    }

    method Release(id: string, hash: string)
      modifies this
      ensures rows == ReleaseTable(old(rows), id, hash)
    {
      if id in rows && rows[id].payloadHash == Some(hash) && rows[id].receipt.None? {
        rows := rows[id := rows[id].(payloadHash := None)];
      }
    }

    method Settle(id: string, hash: string, receipt: Receipt)
      modifies this
      ensures rows == SettleTable(old(rows), id, hash, receipt)
    {
      if id in rows && rows[id].payloadHash == Some(hash) && rows[id].receipt.None? {
        rows := rows[id := rows[id].(receipt := Some(receipt))];
      }
    }
  }

  /** The verdict decides the update: a claim is acquired exactly when the conditional update changes the table. */
  lemma AcquiredIffUpdated(t: Table, id: string, hash: string)
    ensures ClaimResult(t, id, hash).Acquired? <==> ClaimTable(t, id, hash) != t
  {
    if id in t && t[id].payloadHash.None? && t[id].receipt.None? {
      assert ClaimTable(t, id, hash)[id].payloadHash == Some(hash);
    }
  }
}
