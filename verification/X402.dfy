/** The x402 "exact" payment records, the settlement receipt, and the check a receipt must pass. */
module X402 {
  import opened Wrappers

  datatype Requirements = Requirements(
    scheme: string,
    network: string,
    amount: string,
    payTo: string,
    maxTimeoutSeconds: int,
    asset: string,
    challengeId: Option<string>,
    areFeesSponsored: bool)

  datatype Receipt = Receipt(
    success: bool,
    transaction: string,
    network: string,
    payer: string,
    amount: string,
    asset: string,
    payTo: string,
    challengeId: string)

  const HEX_DIGITS :=
    {'0', '1', '2', '3', '4', '5', '6', '7', '8', '9', 'a', 'b', 'c', 'd', 'e', 'f', 'A', 'B', 'C', 'D', 'E', 'F'}

  const BASE32_DIGITS :=
    {'A', 'B', 'C', 'D', 'E', 'F', 'G', 'H', 'I', 'J', 'K', 'L', 'M', 'N', 'O', 'P', 'Q', 'R', 'S', 'T', 'U', 'V', 'W',
     'X', 'Y', 'Z', '2', '3', '4', '5', '6', '7'}

  predicate IsHexDigit(c: char) {
    '0' <= c <= '9' || 'a' <= c <= 'f' || 'A' <= c <= 'F'
  }

  /** A SHA-256 value in hexadecimal of either case. */
  predicate IsHex64(s: string) {
    |s| == 64 && forall i :: 0 <= i < |s| ==> IsHexDigit(s[i])
  }

  predicate IsBase32(c: char) {
    'A' <= c <= 'Z' || '2' <= c <= '7'
  }

  /** The textual shape of a contract address; the StrKey checksum is library code. */
  predicate IsContractAddress(s: string) {
    |s| == 56 && s[0] == 'C' && forall i :: 1 <= i < |s| ==> IsBase32(s[i])
  }

  /** Which characters the two shapes admit, one by one. */
  lemma ShapeCharacters(s: string)
    ensures IsHex64(s) <==> |s| == 64 && forall c | c in s :: c in HEX_DIGITS
    ensures IsContractAddress(s) <==> |s| == 56 && s[0] == 'C' && forall c | c in s[1..] :: c in BASE32_DIGITS
  {
    assert forall c :: IsHexDigit(c) <==> c in HEX_DIGITS;
    assert forall c :: IsBase32(c) <==> c in BASE32_DIGITS;
    if |s| == 56 && s[0] == 'C' && forall c | c in s[1..] :: c in BASE32_DIGITS {
      forall i | 1 <= i < |s| ensures IsBase32(s[i]) {
        assert s[1..][i - 1] in s[1..];
      }
    }
  }

  /** The challenge a set of requirements names; an absent one reads as the empty string. */
  function ChallengeOf(req: Requirements): string {
    req.challengeId.GetOr("")
  }

  predicate ReceiptMatches(receipt: Receipt, req: Requirements, expectedPayer: string) {
    && receipt.success
    && receipt.network == req.network
    && receipt.asset == req.asset
    && receipt.amount == req.amount
    && receipt.payTo == req.payTo
    && receipt.payer == expectedPayer
    && receipt.challengeId == ChallengeOf(req)
    && IsHex64(receipt.transaction)
  }

  /** What the facilitator's settle route may answer; absent JSON fields read as the empty string. */
  datatype SettleReply = SettleReply(success: bool, transaction: string, payer: string) | SettleThrew

  /** The facilitator client: the receipt echoes the requirements and takes only two fields from the wire. */
  function ClientReceipt(reply: SettleReply, req: Requirements): Option<Receipt> {
    if reply.SettleThrew? || !reply.success || reply.transaction == "" || reply.payer == "" then None
    else Some(Receipt(true, reply.transaction, req.network, reply.payer, req.amount, req.asset, req.payTo,
                      ChallengeOf(req)))
  }
}
