# AgentAllowance: a verified model

AgentAllowance lets a delegated agent pay for an HTTP 402 resource with an x402 "exact" payment from a Stellar smart
account. This project models its decision procedures, its two payment state machines and its arithmetic in Dafny, and
proves what they promise. `dafny verify dfyconfig.toml` checks everything.

## How the model is laid out

- **Merchant.** `MerchantStore` is the challenge table with its conditional updates. `MerchantProtocol` runs any
  number of `/premium` handlers over it: every store call and every facilitator reply is one step, so handlers
  interleave at each await, replies may accept, reject or throw, and a handler may die anywhere. `MerchantOutcomes`
  says what each request is answered, branch by branch, and that every settled payment is stored and served.
- **SDK.** `EvidenceStore` holds the two evidence tables with their uniqueness and foreign-key constraints.
  `SdkProtocol` runs overlapping `pay`, `fetch` and `reconcile` operations over them in the same step style,
  `SdkOutcomes` gives the whole row each reply leaves behind, and `SdkBudget` shows what preflight guarantees there.
  `SdkLifecycle` has the graph of attempt states and the runs that follow it, `SdkContention` exactly when the running
  operations of an attempt can take it off the graph, and `AllowanceLifecycle` exactly when a revoked allowance can
  come back. `Agreement` composes SDK and merchant, with payloads delivered at most once and replies that may be lost,
  and `Recovery` shows that a payment can run from start to end there, and that a lost reply is recovered.
- **Authorization and policy.** `Soroban` has decoded values, events, authorization entries and transactions.
  `Authorization` builds and validates the two entries of a delegated payment. `Manifest` is the production check of
  policy manifests, `PolicyEvents` the policy-aware event validator with its loops, `PolicyEventTheorems` what it
  accepts, `PolicyReasons` what it rejects a stream for, `UpstreamEvents` the validator it extends, and `PolicyVerify`
  the policy-aware verification of a whole payment.
- **Relayer plugin.** `RelayerVerify` is the ordered verification and its loops, `RelayerVerifyTheorems` what it
  accepts, `RelayerReasons` and `PolicyRefusals` what each refusal means, `RelayerJson` the JSON argument encoding
  with its decoder, and `RelayerSettle` one settlement with its retries, polling and response. `PaymentRoundTrip` sets
  the payer's builder against the relayer's verification.
- **On chain, arithmetic, console.** `RecipientPolicy` is the recipient-policy contract over all runs, `AmountTypeGap`
  the approved payments it refuses; `Decimal`, `Amounts`, `JsText` and `PaymentWindow` are string-level numbers, fees
  and expiry; `OwnerOperations` has the console's pending operations and its source queue.

SHA-256 is a free constructor, so digests are equal exactly when their preimages are. Addresses are StrKey text. Replies
from the network, clock readings and generated identifiers are arbitrary inputs. Store calls are atomic. An operation that
the source runs as an async method over shared state is modelled as steps, so that other operations can run in between.

## What the proofs found

- **Event order can decide the reason, never the verdict.** Acceptance by the policy-aware event validator depends only on
  the multiset of contract and undecodable events. Once the manifest fits, a rejected stream gets the error of its first
  unparsable event, else the fault in the number or content of its transfers, else that of its first policy event after
  those before it, else the missing required event (`RejectedByRule`). So the order matters exactly when the events have more
  than one possible reason: unparsable events with different errors, or policy events with different faults
  (`ReasonsOverAllOrders`, `ReasonIsOrderFreeIff`).
- **Short timeouts.** For timeouts of one to five seconds the payer's two-ledger floor overshoots the verifier's bound: the
  payment is refused at the ledger it was built at and accepted only at the next one (`AcceptanceWindow`).
- **Swapped entries.** The two authorization entries are accepted in the other order unless the delegate is the payer
  itself (`BuiltIsAccepted`).
- **Amount types.** The facilitator accepts an amount of any integer type that reads as a big integer. The recipient policy
  accepts only an i128, so an approved payment is enforceable exactly when its signed amount is one
  (`ApprovedIsEnforceableIffI128`; `ApprovedU64IsRefused` exhibits approved payments that are not). On the relayer path the
  JSON arguments decode unless the amount has a type that the JSON form lacks (`SendingsDecodeToRequired`).
- **Success without a hash.** On the relayer path a confirmed transaction without a hash is reported as a success whose
  transaction is undefined; the channel path always has a non-empty one (`SuccessCarriesHash`).
- **Overlap.** The running operations of an attempt can take it off the state graph exactly when it is contended: its
  payment is submitted, or reading the body of a success whose transaction no other attempt carries, while a
  reconciliation is waiting or has already settled the row (`CanLeaveIffContended`). A fetch then goes from BLOCKED to
  SETTLED, for instance (`OverlapUndoesBlocked`). A caller that never reconciles an attempt whose payment is in flight
  never sees contention (`CarefulRunsAreCalm`); overlapping reconciliations are harmless.
- **Lost replies.** A payment whose reply is lost is always recovered from the merchant's stored receipt, with one
  exception: if another attempt already carries the transaction, the attempt stays unknown (`LostReplyIsRecovered`).
- **Another payer.** A receipt the merchant serves blocks the fetch as a mismatch exactly when the payer the facilitator
  verified is not the allowance's treasury, although the challenge is settled (`ReplyOutcome`).
- **Stale refreshes.** A revoked allowance can come back without being created again exactly while a refresh or creation
  of it is still waiting to write (`CanReviveIffStale`).
- **Released by hash.** The store releases a claim by payload hash, not by owner; that only the owner ever does so is a
  property of the handlers, not of the table (`OnlyTheHolderReleases`).
- **A relayer without an address.** When neither the relayer nor the operation names a source, the source check compares
  two absent values and refuses the payment (`NamelessRelayerRefuses`).

## Model

| member | source | states |
|---|---|---|
| X402.ShapeCharacters | packages/x402-payer/src/receipt.ts:16-16 | A transaction hash is 64 characters from the hexadecimal digits of either case, a contract address `C` and 55 base-32 characters |
| MerchantStore.DemoPaymentStore.Create | apps/x402-demo-api/src/store.ts:38-42 | A new challenge gets an unclaimed row; an existing one is refused and left alone |
| MerchantStore.DemoPaymentStore.Get | apps/x402-demo-api/src/store.ts:44-54 | A row is found exactly when stored, keeps its terms and receipt, and never reports an empty hash |
| MerchantStore.DemoPaymentStore.ClaimChallenge | apps/x402-demo-api/src/store.ts:56-83 | Verdict and table after one claim transaction, every other row untouched |
| MerchantStore.DemoPaymentStore.Release | apps/x402-demo-api/src/store.ts:85-89 | Only an unsettled row claimed with this hash loses its claim |
| MerchantStore.DemoPaymentStore.Settle | apps/x402-demo-api/src/store.ts:91-95 | Only an unsettled row claimed with this hash gets the receipt, once |
| MerchantStore.AcquiredIffUpdated | apps/x402-demo-api/src/store.ts:74-78 | A claim is acquired exactly when its conditional update changed the table |
| MerchantProtocol.StepKeepsInv | apps/x402-demo-api/src/app.ts:54-138 | Every handler step keeps: one holder per unsettled claim, settle calls backed by held claims, stored receipts matched and backed by a settle call |
| MerchantProtocol.NoCallYet | apps/x402-demo-api/src/app.ts:101-128 | While the holder of a claim is verifying or releasing, settle has not been called for its challenge |
| MerchantProtocol.SettledAtMostOnce | apps/x402-demo-api/src/app.ts:96-137 | Over every interleaving the facilitator's settle is called at most once per challenge |
| MerchantProtocol.ClaimedIffHeldOnce | apps/x402-demo-api/src/app.ts:96-136 | A challenge is claimed without a receipt exactly when one handler, and only one, holds it |
| MerchantProtocol.OnlyTheHolderReleases | apps/x402-demo-api/src/app.ts:105-120 | A claim is given up only by its one holder, before any settle call |
| MerchantProtocol.CalledClaimIsForever | apps/x402-demo-api/src/app.ts:126-136 | After a settle call the claim keeps its payload in every continuation, and no second call is made |
| MerchantProtocol.UnlockedIsSettled | apps/x402-demo-api/src/app.ts:90-137 | Every 200 carries the stored receipt, to the payload that holds the row, matching the requirements and the verified contract payer |
| MerchantProtocol.ReplaysAgree | apps/x402-demo-api/src/store.ts:64-69 | All 200s of one challenge went to one payload with one receipt |
| MerchantProtocol.RunIsLater | apps/x402-demo-api/src/store.ts:85-95 | No run takes back a challenge's terms, a stored receipt, a settle call or a reply |
| MerchantOutcomes.ArrivalAnswer | apps/x402-demo-api/src/app.ts:87-94 | A request is answered 404, 410 or 400 exactly for an unknown challenge, one past its expiry, or one of the eight terms repeated wrongly, in that order |
| MerchantOutcomes.ExpiresAfterAMinute | apps/x402-demo-api/src/app.ts:66-91 | Whatever happened meanwhile, a challenge answers with expiry exactly when more than a minute has passed since it was minted |
| MerchantOutcomes.ClaimAnswer | apps/x402-demo-api/src/app.ts:96-99 | The stored hash and receipt decide between proceeding, serving the receipt, pending and conflict, and only an unclaimed row changes |
| MerchantOutcomes.PendingIffHeldElsewhere | apps/x402-demo-api/src/app.ts:98-98 | Pending is answered exactly while another handler holds the challenge with the same payload |
| MerchantOutcomes.VerdictAnswer | apps/x402-demo-api/src/app.ts:101-125 | A valid verdict naming a contract leads to the one settle call; any other, or an exception, unclaims the row and is answered as rejected, or as unavailable |
| MerchantOutcomes.SettlementAnswer | apps/x402-demo-api/src/app.ts:126-137 | From every reachable state a settlement for the verified payer with a proper hash is stored and served on the challenge's terms; any other reply is answered as a failed settlement and stores nothing |
| MerchantOutcomes.SettledStaysOnCourse | apps/x402-demo-api/src/app.ts:126-137 | Whatever other handlers do, a settled payment is never answered otherwise: its handler stores the receipt, serves the stored one, or has died |
| MerchantOutcomes.OpenChallengeIsServed | apps/x402-demo-api/src/app.ts:81-137 | From every reachable state an honest payment of any unclaimed, unexpired challenge runs through to its receipt |
| MerchantOutcomes.EveryMintCanBePaid | apps/x402-demo-api/src/app.ts:54-137 | From the empty table there is, for every minted set of requirements, a run that ends unlocked with their receipt |
| MerchantOutcomes.SettledChallengeAnswers | apps/x402-demo-api/src/app.ts:96-99 | A settled challenge serves its receipt again to its own payload and refuses every other one, until it expires |
| EvidenceStore.SqliteEvidenceStore.PutAttemptRow | packages/sdk/src/store.ts:115-131 | The attempt upsert keeps identity columns, rejects constraint violations without change, and keeps the tables consistent |
| EvidenceStore.SqliteEvidenceStore.PutAllowanceRow | packages/sdk/src/store.ts:92-104 | The allowance upsert, likewise |
| EvidenceStore.SqliteEvidenceStore.FindAttempt | packages/sdk/src/store.ts:138-143 | The one attempt of an allowance and reference, or none exactly when there is none |
| EvidenceStore.PutAttemptKeeps | packages/sdk/src/store.ts:79-87 | Every accepted attempt upsert preserves uniqueness and foreign keys and only extends the tables |
| EvidenceStore.PutAllowanceKeeps | packages/sdk/src/store.ts:70-77 | Every accepted allowance upsert does |
| SdkProtocol.StepKeepsInv | packages/sdk/src/agent-allowance.ts:172-304 | Every step of any overlapping pay, fetch or reconcile keeps the evidence invariant |
| SdkProtocol.IdentityIsForever | packages/sdk/src/store.ts:92-131 | Over every interleaving identity columns never change and rows never disappear |
| SdkProtocol.OnePayloadPerRequest | packages/sdk/src/agent-allowance.ts:416-475 | Each allowance and request has at most one attempt, at most one signed and one sent payload, and attempts refer to stored allowances |
| SdkProtocol.EvidenceStands | packages/sdk/src/agent-allowance.ts:259-300 | Settled and unlocked rows carry a receipt with the derived columns, others none; an unlocked row's receipt is for its own payment by the allowance's treasury |
| SdkOutcomes.StartOutcome | packages/sdk/src/agent-allowance.ts:421-423 | A second payment of a request by the same allowance is refused before anything is written, whatever became of the first |
| SdkOutcomes.InsertOutcome | packages/sdk/src/agent-allowance.ts:424-440 | The reserved row is inserted exactly for a stored allowance and a request still without an attempt |
| SdkOutcomes.RefreshOutcome | packages/sdk/src/agent-allowance.ts:361-387 | The spending the chain reports replaces the stored one and decides the status; without an answer it stays and the status is an error; the same record is stored and decided on |
| SdkOutcomes.PreflightReasons | packages/sdk/src/agent-allowance.ts:145-170 | Each refusal of preflight under its own condition, in the order of the checks |
| SdkOutcomes.DecisionOutcome | packages/sdk/src/agent-allowance.ts:447-451 | The decision on the refreshed record is written down: blocked with its reason, or validated |
| SdkOutcomes.SigningOutcome | packages/sdk/src/agent-allowance.ts:452-475 | A missing signer or a failed build blocks the attempt with its reason; a signed payload is logged |
| SdkOutcomes.VerdictOutcome | packages/sdk/src/agent-allowance.ts:179-184 | A refusal by the facilitator blocks the attempt; otherwise the payload counts as sent |
| SdkOutcomes.SettleOutcome | packages/sdk/src/agent-allowance.ts:185-205 | Pay records a settlement exactly when it is for the stored treasury, with a proper hash that no other attempt carries; whatever else comes back leaves the attempt unknown |
| SdkOutcomes.PaidReplyOutcome | packages/sdk/src/agent-allowance.ts:224-264 | The row every reply to the paid request leaves: unknown when it is lost or settlement failed, blocked for three different refusals, untouched for a receipt of this payment |
| SdkOutcomes.PaidReplyReasons | packages/sdk/src/agent-allowance.ts:229-264 | State and reason of the row tell which reply came back, in both directions |
| SdkOutcomes.BodyOutcome | packages/sdk/src/agent-allowance.ts:265-277 | The body of a success unlocks, that of a failure leaves a settled fault, both with the evidence, unless another attempt carries the transaction |
| SdkOutcomes.ReconcileStartOutcome | packages/sdk/src/agent-allowance.ts:280-283 | A reconciliation asks the merchant exactly for submitted and unknown attempts |
| SdkOutcomes.StatusOutcome | packages/sdk/src/agent-allowance.ts:284-303 | A stored success settles the attempt unless another one carries its transaction; any other answer writes nothing |
| SdkOutcomes.PayableIsSigned | packages/sdk/src/agent-allowance.ts:416-475 | From every reachable state a new request within a stored allowance can be reserved, refreshed, allowed and signed |
| SdkBudget.AllowedIffRoom | packages/sdk/src/agent-allowance.ts:145-170 | Preflight allows exactly payments inside the terms of an active, unexpired allowance with room left, and reports what remains |
| SdkBudget.ActiveIffRefreshedInTime | packages/sdk/src/agent-allowance.ts:373-387 | A refreshed allowance is active exactly when the chain answered in time with budget left |
| SdkBudget.StepKeepsBudget | packages/sdk/src/agent-allowance.ts:443-475 | Every step keeps that whatever was signed or is in flight passed preflight |
| SdkBudget.SignedWithinAllowance | packages/sdk/src/agent-allowance.ts:443-475 | Over every interleaving each payload ever signed pays an allowed recipient of its stored allowance in that allowance's asset |
| SdkLifecycle.StepFollowsGraph | packages/sdk/src/agent-allowance.ts:172-304 | While no attempt is contended any step, overlapping or not, moves every attempt along an edge of the graph or not at all |
| SdkLifecycle.RunFollowsGraph | packages/sdk/src/agent-allowance.ts:172-304 | Over whole runs without contention attempts descend from CREATED along the acyclic graph |
| SdkLifecycle.SettledStatesAbsorb | packages/sdk/src/agent-allowance.ts:280-282 | Without contention BLOCKED, SETTLED and UNLOCKED never change again, and no attempt falls back in rank |
| SdkLifecycle.ReconcileSettles | packages/sdk/src/agent-allowance.ts:280-304 | Reconciliation settles only submitted or unknown attempts, and an unknown one changes no other way |
| SdkLifecycle.CarefulRunsAreCalm | packages/sdk/src/agent-allowance.ts:280-282 | If no reconciliation starts while its attempt's payment is in flight, no attempt is ever contended |
| SdkLifecycle.ReconcileContendsIffOpen | packages/sdk/src/agent-allowance.ts:280-288 | From an uncontended state a reconciliation contends its attempt exactly when the payment is open |
| SdkContention.CanLeaveIffContended | packages/sdk/src/agent-allowance.ts:183-304 | In every tracked state the running operations of an attempt can take it off the graph if and only if it is contended |
| SdkContention.ReconcileSafeIffNotOpen | packages/sdk/src/agent-allowance.ts:280-304 | Starting a reconciliation makes leaving the graph possible exactly when the payment is open |
| SdkContention.OverlapUndoesBlocked | packages/sdk/src/agent-allowance.ts:257-299 | From every state in which a polled fetch awaits its paid reply, a refusal and the stale poll take it to BLOCKED and then SETTLED |
| SdkContention.ContentionIsReachable | packages/sdk/src/agent-allowance.ts:208-304 | A careful run reaches a state in which one careless reconciliation makes leaving the graph possible |
| AllowanceLifecycle.GetOutcome | packages/sdk/src/agent-allowance.ts:357-388 | A refresh stores what the chain says of a stored allowance that is not revoked, and nothing else; of others it ends |
| AllowanceLifecycle.RevokeOutcome | packages/sdk/src/agent-allowance.ts:394-402 | A revocation marks exactly its allowance as revoked with its transaction; a failed one changes nothing |
| AllowanceLifecycle.CreateOutcome | packages/sdk/src/agent-allowance.ts:306-355 | A created allowance is stored unless another one has its rule; over one of its own identifier only mutable columns change |
| AllowanceLifecycle.RevokedAbsorbs | packages/sdk/src/agent-allowance.ts:357-402 | REVOKED stays over every run while no stale write of the allowance waits and it is not created again |
| AllowanceLifecycle.CanReviveIffStale | packages/sdk/src/agent-allowance.ts:357-402 | A revoked allowance can come back without a new creation if and only if a refresh or creation of it is waiting |
| AllowanceLifecycle.RevocationAloneIsFinal | packages/sdk/src/agent-allowance.ts:394-402 | A revocation that overlaps no refresh and no creation of its allowance is final |
| Agreement.StepKeepsInv | packages/sdk/src/agent-allowance.ts:208-304 | Every composed step keeps the links between sent payloads, merchant handlers and evidence rows |
| Agreement.EndsAgree | packages/sdk/src/agent-allowance.ts:208-304 | A fetch attempt that stands settled or unlocked holds the merchant's stored receipt; an unlocked one was paid by a settle call for its own payload and no other |
| Agreement.RejectedWasNotSettled | packages/sdk/src/agent-allowance.ts:239-244 | An attempt blocked because the facilitator rejected it had no settle call for its payload |
| Recovery.ReplyOutcome | packages/sdk/src/agent-allowance.ts:224-264 | What the merchant answered is what the attempt records: a refusal and a failed settlement as such, a served receipt lets the body be read exactly when the attempt's own treasury paid, every other answer blocks |
| Recovery.LostReplyIsRecovered | packages/sdk/src/agent-allowance.ts:224-304 | If the reply of a payment the merchant stored is lost, reconciling settles the attempt with the stored receipt, unless another attempt carries its transaction |
| Recovery.SettledButUnheardIsRecovered | packages/sdk/src/agent-allowance.ts:224-304 | Whatever the merchant settles for a fetch that never hears of it, storing, losing the reply and reconciling end in that receipt |
| Recovery.SettledFetchUnlocks | packages/sdk/src/agent-allowance.ts:224-277 | A fetch whose payment its own treasury settles unlocks with exactly the receipt the merchant stores |
| Recovery.PayableFetchUnlocks | packages/sdk/src/agent-allowance.ts:208-277 | From every reachable state of the composed system a payable request for an open challenge can be fetched, paid and unlocked, both sides ending with one receipt |
| Authorization.ReadAuthPayload | packages/stellar-smart-account-auth/src/validate.ts:41-85 | The two reading loops compute the delegate and rule list of a well-formed payload, or nothing |
| Authorization.ReadsWhatIsBuilt | packages/stellar-smart-account-auth/src/authorization.ts:66-85 | A payload reads as a delegate and rule list exactly when it is the built map in one of its two orders |
| Authorization.ValidIffEndorsed | packages/stellar-smart-account-auth/src/validate.ts:87-186 | Validation accepts exactly a payer entry and a delegated entry that endorse the transfer with the digest of the payer's own payload and rules |
| Authorization.BuiltIsAccepted | packages/stellar-smart-account-auth/src/authorization.ts:87-133 | Built entries are accepted with the same delegate and rules, in the other order exactly when delegate and payer differ |
| Authorization.DelegatedEntryBinds | packages/stellar-smart-account-auth/src/validate.ts:162-178 | A delegated entry accepted for one payer payload and rule list is accepted for no other |
| Authorization.WritableIff64Bits | packages/stellar-smart-account-auth/src/authorization.ts:20-55 | A transfer can be written exactly for amounts of at most 64 bits, and reads back with its parties and amount |
| PolicyRefusals.PairReasons | packages/stellar-smart-account-auth/src/validate.ts:104-186 | What is wrong with the two entries, each reason under its own condition, in the order of the checks |
| PolicyRefusals.TransactionThrowsIff | packages/facilitator-policy/src/verify-authorization.ts:20-76 | Checking the transaction throws exactly at an address that is none, among the parties of the call or of a paying call's root |
| Manifest.AssertProductionManifest | packages/facilitator-policy/src/manifest.ts:29-89 | The throwing checks return normally exactly on production manifests |
| Manifest.CheckAdapters | packages/facilitator-policy/src/manifest.ts:68-88 | The adapter loop with its identity set accepts exactly pinned, required adapters of distinct contracts, for any number of them |
| PolicyEvents.RequiredTransfer | packages/facilitator-policy/src/events.ts:91-112 | The transfer check passes exactly on events of the token with topics transfer, payer and recipient and the amount as data |
| PolicyEvents.HashObserved | packages/facilitator-policy/src/events.ts:188-202 | A pin is met exactly when code was observed for the contract and its hash has the pin's length and letters, up to ASCII case |
| PolicyEvents.MapFields | packages/facilitator-policy/src/events.ts:114-124 | The field loop yields the map of a symbol-keyed list without repetitions, or nothing |
| PolicyEvents.ParseContractEvents | packages/facilitator-policy/src/events.ts:52-89 | The parsing loop keeps the contract events in order or stops at the first bad one |
| PolicyEvents.ScanPolicyEvents | packages/facilitator-policy/src/events.ts:239-265 | The scan with its seen set computes the approved list or the first error |
| PolicyEvents.ValidateSimulationEvents | packages/facilitator-policy/src/events.ts:204-274 | The validator's loops compute the verdict the theorems below characterize |
| PolicyEventTheorems.VerdictIffAcceptable | packages/facilitator-policy/src/events.ts:204-274 | Acceptance is a predicate on the multiset of events: well formed, one required transfer, every policy event approved and alone for its contract, every required adapter witnessed; the approved list names those contracts once each |
| PolicyEventTheorems.OrderAndSkippedEventsDoNotMatter | packages/facilitator-policy/src/events.ts:223-271 | Streams with the same relevant events, in any order, get the same acceptance and approved contracts |
| PolicyEventTheorems.PermutationKeepsRelevant | packages/facilitator-policy/src/events.ts:52-89 | A permutation keeps the relevant events |
| PolicyEventTheorems.InsertionKeepsRelevant | packages/facilitator-policy/src/events.ts:65-66 | So does inserting or deleting well-formed events of other kinds anywhere |
| PolicyReasons.RejectedByRule | packages/facilitator-policy/src/events.ts:204-274 | The reason of a stream in a given order: manifest, first unparsable event, transfers, first policy event at fault after those before it, missing required event |
| PolicyReasons.ReasonsOverAllOrders | packages/facilitator-policy/src/events.ts:223-271 | The reasons over all orders of the same events are exactly those a predicate on their multiset allows |
| PolicyReasons.ReasonIsOrderFreeIff | packages/facilitator-policy/src/events.ts:223-271 | The reason is the same in every order if and only if only one is possible |
| PolicyReasons.ParseReasonIsOrderFreeIff | packages/facilitator-policy/src/events.ts:57-72 | With unparsable events that is when all of them share one error |
| PolicyReasons.TransferReasonIsOrderFree | packages/facilitator-policy/src/events.ts:223-237 | Faults in the number or content of transfers are reported in every order alike |
| PolicyEventTheorems.ProductionLeavesTwoEvents | packages/facilitator-policy/src/events.ts:204-274 | Under a production manifest the accepted streams are those whose relevant events are the required transfer and one spending-limit event of the pinned contract, observed to run the pinned code letter by letter |
| PolicyEventTheorems.DifferingCodeIsRefused | packages/facilitator-policy/src/events.ts:188-202 | Under a production manifest no stream is accepted when nothing was observed for the adapter's contract or the observed hash differs from the pin in length or in any letter |
| UpstreamEvents.ParseTransferEvents | packages/relayer-plugin-x402-facilitator/src/stellar/utils.ts:366-494 | The parsing loop collects transfers and flags, skipping what it cannot decode |
| UpstreamEvents.UpstreamIffSoleEvent | packages/relayer-plugin-x402-facilitator/src/stellar/utils.ts:510-613 | The upstream validator accepts exactly the streams whose only decoded contract event is the required transfer |
| UpstreamEvents.PolicyExtendsUpstream | packages/facilitator-policy/src/events.ts:204-274 | Policy-aware acceptance is upstream acceptance of the stream without policy events, plus well-formedness, fitting pins and passing policy events |
| UpstreamEvents.WithoutAdaptersTheyCoincide | packages/relayer-plugin-x402-facilitator/src/stellar/utils.ts:480-486 | Without adapters the verdicts differ only on malformed events and contract events outside successful calls |
| PolicyVerify.TransactionValidIff | packages/facilitator-policy/src/verify-authorization.ts:20-76 | The transaction check yields a rule exactly when the one call pays and a rule list headed by it is endorsed |
| PolicyVerify.ApprovedIffAllAgree | packages/facilitator-policy/src/verify.ts:54-198 | Approval happens exactly when request, transaction, entries, rule and events all agree on the payment, payer and recipient policy run their pinned code, and the network's own phrase is signed |
| PolicyVerify.PassesIffReports | packages/facilitator-policy/src/events.ts:126-186 | The spending-limit check passes exactly on events reporting this payer, amount, rule and embedded transfer |
| PolicyVerify.ApprovedSpeaksOfOnePayment | packages/facilitator-policy/src/verify.ts:77-197 | The transaction call, the payer's root, the one transfer event and every policy event agree on token, payer, recipient and positive amount, that transfer event being the only one and occurring once; the head of the rule selection is every event's rule and the pinned or installed one |
| PolicyVerify.OneTransactionOnePayment | packages/facilitator-policy/src/verify.ts:54-198 | A transaction approved twice, under any requirements and replies, was approved for the same payment, network, delegate and rule |
| PolicyRefusals.ValueReasons | packages/facilitator-policy/src/events.ts:126-186 | Of a well-built event other numbers or another call are out of context, no call is malformed and a null one throws |
| PolicyRefusals.FieldReasons | packages/facilitator-policy/src/events.ts:134-156 | An event of the payer is malformed exactly without the four fields of their types |
| PolicyRefusals.RequestRefusals | packages/facilitator-policy/src/verify.ts:68-93 | The refusals of the request, each under its own condition, naming no payer |
| PolicyRefusals.LaterRefusals | packages/facilitator-policy/src/verify.ts:94-175 | Transaction, rule, recipient policy and events are checked in this order, each failing with its own reason |
| PolicyRefusals.EventRefusals | packages/facilitator-policy/src/verify.ts:176-197 | Each fault of the events is refused with the payer and its own reason |
| JsText.NumeralsReadDecimally | packages/relayer-plugin-x402-facilitator/src/stellar/verify.ts:270-270 | On numerals the runtime's integer conversion is the decimal value |
| JsText.BlanksDoNotCount | packages/relayer-plugin-x402-facilitator/src/stellar/verify.ts:270-270 | White space around a text changes nothing of what it converts to, and white space alone converts to zero |
| JsText.PrefixedReadsPositionally | packages/relayer-plugin-x402-facilitator/src/stellar/verify.ts:270-270 | Behind its marker a text reads positionally in base 16, 8 or 2, in either case |
| JsText.PrefixedConvertsIff | packages/relayer-plugin-x402-facilitator/src/stellar/verify.ts:270-270 | Such a text converts exactly when all of it is digits of the base |
| JsText.MarkersNeedZero | packages/relayer-plugin-x402-facilitator/src/stellar/verify.ts:270-270 | Only a zero makes a marker: behind another digit it is a stray character |
| JsText.SignsCount | packages/relayer-plugin-x402-facilitator/src/stellar/verify.ts:270-270 | One sign may stand before decimal digits, and needs some |
| RelayerVerify.SelectManifest | packages/relayer-plugin-x402-facilitator/src/stellar/verify.ts:278-294 | The selection loop computes the first named or first code-matching manifest |
| RelayerVerify.ValidateAuthEntries | packages/relayer-plugin-x402-facilitator/src/stellar/utils.ts:223-276 | The two passes report the first offence, facilitator addresses first |
| RelayerVerify.SignedAddresses | packages/relayer-plugin-x402-facilitator/src/stellar/utils.ts:285-324 | The loop lists exactly the addresses with a signed entry, and nothing unsigned exactly when all are signed |
| RelayerVerify.CollectExpirations | packages/relayer-plugin-x402-facilitator/src/stellar/utils.ts:150-175 | The expirations of the address credentials, in order |
| RelayerVerify.CheckWindow | packages/relayer-plugin-x402-facilitator/src/stellar/utils.ts:637-707 | The expiry scan stops at the first entry outside the window |
| RelayerVerify.VerifyPayment | packages/relayer-plugin-x402-facilitator/src/stellar/verify.ts:105-544 | The ordered checks with their loops compute the response the theorems below characterize, exceptions included |
| RelayerVerify.FeeVerdictOnNumerals | packages/relayer-plugin-x402-facilitator/src/stellar/verify.ts:443-467 | On numerals the fee bounds are the plain ones |
| RelayerVerifyTheorems.FeePassesIff | packages/relayer-plugin-x402-facilitator/src/stellar/verify.ts:443-467 | A given fee passes exactly when it converts and is no less than a given minimum and no more than a given cap |
| RelayerVerifyTheorems.EntriesPassIff | packages/relayer-plugin-x402-facilitator/src/stellar/verify.ts:333-375 | The entry checks pass exactly when all are signed address credentials without sub-invocations, one is the payer's, and none is of an address to be kept out |
| RelayerVerifyTheorems.SelectionFits | packages/relayer-plugin-x402-facilitator/src/stellar/verify.ts:278-294 | The first manifest naming the payer is selected, else the first of those for code that the payer is observed to run; none exactly when every lookup answered without a match |
| RelayerVerifyTheorems.VerifiedIffAdmissible | packages/relayer-plugin-x402-facilitator/src/stellar/verify.ts:105-544 | A payment is verified exactly when its request is for a configured network and asset, it is the required operation, payer, entries and source are none of the configured addresses, it is inside its window and fee bounds, and its events are admitted |
| RelayerVerifyTheorems.VerifiedSparesOwn | packages/relayer-plugin-x402-facilitator/src/stellar/verify.ts:240-304 | For each configured address of the relayer, a verified payment has another payer and source, no entry of it, and under a manifest another recipient and delegate |
| RelayerVerifyTheorems.NamelessRelayerRefuses | packages/relayer-plugin-x402-facilitator/src/stellar/verify.ts:379-390 | A relayer without an address verifies no operation without a source of its own |
| RelayerVerifyTheorems.VerifiedTransfersOnce | packages/relayer-plugin-x402-facilitator/src/stellar/verify.ts:483-535 | On either path a verified payment simulates exactly one transfer event, the required one |
| RelayerVerifyTheorems.ManifestPayersNeedApproval | packages/relayer-plugin-x402-facilitator/src/stellar/verify.ts:278-304 | A payer some manifest names is verified only through a policy-aware approval under the first one naming it |
| RelayerVerifyTheorems.CodePayersNeedApproval | packages/relayer-plugin-x402-facilitator/src/stellar/verify.ts:282-294 | A payer none names but one knows by its code is verified only through an approval under the first such manifest, against the hashes that showed the code |
| RelayerVerifyTheorems.UnpinnedRulesAreLookedUp | packages/relayer-plugin-x402-facilitator/src/stellar/verify.ts:483-514 | Under a manifest that pins no rule a payment is verified only by a relayer with an address, and for a rule looked up as installed for its token and recipient |
| RelayerReasons.RequestReasons | packages/relayer-plugin-x402-facilitator/src/stellar/verify.ts:105-152 | Each reason to refuse the request under its own condition, in order |
| RelayerReasons.OperationReasons | packages/relayer-plugin-x402-facilitator/src/stellar/verify.ts:166-231 | Each reason to refuse the transaction's call under its own condition, in order |
| RelayerReasons.TransferReasons | packages/relayer-plugin-x402-facilitator/src/stellar/verify.ts:236-276 | A configured payer first, then recipient and amount; an amount that does not convert throws |
| RelayerReasons.WindowReasons | packages/relayer-plugin-x402-facilitator/src/stellar/verify.ts:392-407 | The first credential outside the window decides between expired and too far; a ledger that cannot be read is refused or throws |
| RelayerReasons.AuthReasons | packages/relayer-plugin-x402-facilitator/src/stellar/verify.ts:306-392 | The checks of the authorization in order, each reason under its own condition on entries, payer and configured addresses |
| RelayerReasons.SimulationReasons | packages/relayer-plugin-x402-facilitator/src/stellar/verify.ts:428-482 | Minimum before cap, a number that does not convert throws, and only then are the events looked at |
| RelayerReasons.LateRefusals | packages/relayer-plugin-x402-facilitator/src/stellar/verify.ts:236-482 | Transfer values, manifest, recipient, authorization, window, fee and simulation are checked in this order |
| RelayerReasons.EventRefusals | packages/relayer-plugin-x402-facilitator/src/stellar/verify.ts:483-535 | Without a manifest the upstream reason is reported, under one the policy-aware one, and an approved delegate of the relayer is refused |
| RelayerVerifyTheorems.ProductionPaymentsLeaveTwoEvents | packages/relayer-plugin-x402-facilitator/src/stellar/verify.ts:483-514 | Under a production manifest a verified payment's relevant events are exactly the transfer and the pinned policy's event |
| RelayerJson.DecodeEncode | packages/relayer-plugin-x402-facilitator/src/stellar/utils.ts:79-140 | Decoding undoes the recursive JSON encoding exactly on supported values |
| RelayerJson.EncodeInjective | packages/relayer-plugin-x402-facilitator/src/stellar/utils.ts:79-140 | No other value shares the JSON form of a supported one |
| RelayerSettle.Settlement.VerifyForSettlement | packages/relayer-plugin-x402-facilitator/src/stellar/settle.ts:63-78 | At most three verifications, retried only after the transient error, with waits of 250 and 750 ms that end before the deadline |
| RelayerSettle.Settlement.SubmitWithRetries | packages/relayer-plugin-x402-facilitator/src/stellar/settle.ts:195-238 | At most four submissions of the same operation, each but the last refused for capacity, with doubling waits that end before the deadline |
| RelayerSettle.Settlement.PollTransactionStatus | packages/relayer-plugin-x402-facilitator/src/stellar/settle.ts:131-171 | Answers with status absent, empty, pending, sent or submitted keep polling; the first other answer or an exception is the result; while still running, polling ends only when the time is used up, with a time-out; at most one poll per started second |
| RelayerSettle.Settlement.SettleViaChannel | packages/relayer-plugin-x402-facilitator/src/stellar/settle.ts:177-311 | The response the submissions and polls determine |
| RelayerSettle.Settlement.SettleViaRelayer | packages/relayer-plugin-x402-facilitator/src/stellar/settle.ts:317-389 | One sending with the JSON-encoded arguments and the signed entries, and its response |
| RelayerSettle.Settlement.Settle | packages/relayer-plugin-x402-facilitator/src/stellar/settle.ts:425-534 | Bounded retries, at most one accepted submission, nothing sent unless the last verification passed and then only its operation, and the response the logs determine |
| RelayerSettle.ChannelSuccess | packages/relayer-plugin-x402-facilitator/src/stellar/settle.ts:240-302 | A channel success is exactly an accepted submission with a hash at once or confirmed by the last poll |
| RelayerSettle.ChannelFailure | packages/relayer-plugin-x402-facilitator/src/stellar/settle.ts:240-302 | Every other end is one failure of the channel, with the hash of the answer that refused or ended it |
| RelayerSettle.TimelyConfirmationSettles | packages/relayer-plugin-x402-facilitator/src/stellar/settle.ts:131-302 | A transaction accepted without a hash and ended before the deadline was polled through every running status, and settles exactly when the answer that ended polling confirms it with a hash, which the response carries |
| RelayerSettle.DeadlineLeaves | packages/relayer-plugin-x402-facilitator/src/stellar/settle.ts:425-440 | Two seconds of the timeout are kept back, or half of a timeout shorter than four |
| RelayerSettle.SuccessCarriesHash | packages/relayer-plugin-x402-facilitator/src/stellar/settle.ts:365-389 | The relayer path succeeds exactly on a confirmation and carries its hash, absent when the confirmation lacks one; a channel success always has a non-empty hash |
| RelayerSettle.SubmissionsAreRequired | packages/relayer-plugin-x402-facilitator/src/stellar/settle.ts:489-518 | Every submission is the required transfer of verified payer, recipient and amount with plain signed entries, one the payer's; payer and entries are none of the addresses configured at the deciding verification |
| RelayerSettle.SendingsDecodeToRequired | packages/relayer-plugin-x402-facilitator/src/stellar/settle.ts:335-363 | The submitted JSON decodes to the verified arguments, except for amounts of a type the JSON form lacks; its entries spare the configured addresses too |
| PaymentRoundTrip.BuildsIff | packages/x402-payer/src/payment.ts:35-131 | Building succeeds exactly on a Stellar network, for a positive 64-bit amount, with a recorded entry of the account and a fee within the cap |
| PaymentRoundTrip.BuiltTransactionPays | packages/x402-payer/src/payment.ts:56-131 | What the payer builds from the recorded transfer passes the facilitator's transaction and entry checks with its delegate and rule |
| PaymentRoundTrip.BuiltPaymentIsVerified | packages/x402-payer/src/payment.ts:56-131 | Under a fitting policy the built payment is verified at every ledger of its validity period and every fee within the headroom |
| PaymentWindow.ValidateExpirations | packages/relayer-plugin-x402-facilitator/src/stellar/utils.ts:680-706 | The scan passes exactly when every expiration is inside the window, and otherwise reports the first outside |
| PaymentWindow.WindowInSeconds | packages/relayer-plugin-x402-facilitator/src/stellar/utils.ts:680-706 | The window without rounding: in the future, with fewer whole five-second closes ahead than the timeout allows |
| PaymentWindow.AcceptanceWindow | packages/x402-payer/src/payment.ts:68-68 | For every timeout, exactly when an authorization built at one ledger passes at another |
| PaymentWindow.AcceptedAtOnceIffLong | packages/x402-payer/src/payment.ts:68-68 | A payment passes at its own build ledger exactly when the timeout exceeds five seconds |
| PaymentWindow.SelectedFeePasses | packages/x402-payer/src/payment.ts:35-54 | A selected fee passes exactly while the re-simulated minimum is within a tenth plus one hundred stroops of the old one |
| PaymentWindow.SelectedIffWithinCap | packages/x402-payer/src/payment.ts:35-54 | A fee is selected exactly for a numeric minimum and cap when the minimum, a tenth of it rounded up and a hundred stroops are within the cap; it is that sum in canonical form |
| Amounts.AtomicAmounts | packages/shared/src/amounts.ts:1-6 | An atomic amount is a positive number in digits; texts other than digits and zeros alone are told apart |
| Amounts.PrintThenParse | packages/shared/src/amounts.ts:8-22 | Every positive amount survives printing and parsing for every number of decimals |
| Amounts.PrintIsCanonical | packages/shared/src/amounts.ts:17-22 | Printed amounts have no superfluous zeros and no bare point |
| Amounts.PrintIsInjective | packages/shared/src/amounts.ts:17-22 | Distinct amounts print differently |
| Amounts.QuotientIsDivision | packages/shared/src/amounts.ts:19-21 | The model's quotient and remainder are the runtime's |
| Amounts.ParseScales | packages/shared/src/amounts.ts:8-15 | An accepted decimal is scaled exactly |
| Amounts.ParseThenPrint | packages/shared/src/amounts.ts:8-22 | Printing an accepted decimal normalizes its text without changing its value |
| Amounts.ReproducedIffCanonical | packages/shared/src/amounts.ts:8-22 | An accepted text is reproduced exactly when it is canonical |
| RecipientPolicy.RecipientPolicyContract.Install | contracts/recipient-policy/src/lib.rs:95-113 | Error and storage after an install, other keys untouched |
| RecipientPolicy.RecipientPolicyContract.Uninstall | contracts/recipient-policy/src/lib.rs:115-122 | Error and storage after an uninstall |
| RecipientPolicy.RecipientPolicyContract.Enforce | contracts/recipient-policy/src/lib.rs:78-93 | When enforcement panics, and with what; the parameters stay |
| RecipientPolicy.CallOutcome | contracts/recipient-policy/src/lib.rs:78-122 | Without the account's authorization nothing happens; install, uninstall and enforcement each succeed under their own conditions, and a failing call leaves the storage alone |
| RecipientPolicy.ConfigIsLastInstall | contracts/recipient-policy/src/lib.rs:42-49 | After any run, reading a key reports parameters exactly when they are its last unremoved install, and otherwise that it has none |
| RecipientPolicy.StoredIsLastUnremovedInstall | contracts/recipient-policy/src/lib.rs:95-122 | Over all runs by many accounts a key stores exactly its last successful install not removed since |
| RecipientPolicy.ApprovedIsEnforceableIffI128 | contracts/recipient-policy/src/lib.rs:51-72 | A payment approved in dynamic mode against the installed parameters is enforced exactly when its amount is an i128 |
| RecipientPolicy.BuiltTransferPasses | packages/stellar-smart-account-auth/src/authorization.ts:30-55 | Transfers the payer builds satisfy the policy |
| AmountTypeGap.ApprovedU64IsRefused | contracts/recipient-policy/src/lib.rs:67-71 | For every payment a dynamic-mode request with a u64 amount is approved under a production manifest and refused by the installed policy |
| OwnerOperations.PendingOwnerOperations.Put | apps/console/src/owner-operations.ts:10-13 | A taken identifier is refused, a free one stores the operation |
| OwnerOperations.PendingOwnerOperations.Take | apps/console/src/owner-operations.ts:15-22 | The operation is returned only to its owner, for its kind, before expiry, and is removed in any case |
| OwnerOperations.TakenIffPrepared | apps/console/src/owner-operations.ts:10-22 | A take succeeds exactly when an operation of the owner and kind was put under the identifier, not taken since, and has not expired |
| OwnerOperations.PutIffFree | apps/console/src/owner-operations.ts:10-22 | A put succeeds exactly while no operation under its identifier waits to be taken |
| OwnerOperations.TakenAtMostOnce | apps/console/src/owner-operations.ts:10-22 | Each prepared operation is taken at most once |
| SourceQueue.OneAtATimeInOrder | apps/console/src/server.ts:296-301 | Queued operations start in submission order, one at a time |
| SourceQueue.FailureStartsTheNext | apps/console/src/server.ts:296-301 | Whether an operation succeeds or fails, the one submitted after it can then start |
| SourceQueue.WaitingMeansProgress | apps/console/src/server.ts:296-301 | While an operation waits, the first unfinished one up to it can start or finish, failures before it notwithstanding |
| SourceQueue.EverythingCanFinish | apps/console/src/server.ts:296-301 | Whatever outcomes the operations have, from every state there is a run in which all of them finish with those |

## Left out

- XDR, base64, JSON, StrKey and HTTP encodings, Ed25519 and SHA-256: values are decoded and hashes symbolic; undecodable
  events and transactions appear as one malformed case.
- Text that is not valid UTF-8 in symbols and strings, and non-string keys of native objects.
- Unicode lower-casing of code hashes: only ASCII letters are folded.
- Null pointers inside empty vectors and maps, and identity of duplicate entry objects in the entry list.
- Fractional or absent `maxTimeoutSeconds`: it is an integer that the request always carries.
- The columns `safeDetail`, `facilitatorStatus`, `responseHash` and `updatedAt`, and the SDK's list operations.
- Creating, refreshing and revoking allowances inside the payment runs: there they are arbitrary allowance writes, so that
  the payment results hold whatever they do; their own steps are in `AllowanceLifecycle`.
- A rule created twice under one identifier for two treasuries: the allowance table is keyed by rule identifier alone, and
  the upsert then rewrites the other treasury's mutable columns; `CreateOutcome` shows the
  rewrite, and nothing else is claimed about it.
- Attempts blocked with RESOURCE_UNLOCK_FAILED or RECEIPT_MISMATCH: the merchant may have settled them; nothing is claimed
  about their settlement.
- Request parsing and route selection of the merchant and the plugin, and the plugin's rejection of duplicate profiles.
- Looking code hashes and installed rules up over RPC: the replies are inputs of the verification.
- The spending-limit contract, `do_check_auth`, storage lifetimes and the ledger itself.
- The console's sessions, funding, deployment and user interface, the command-line tools and scripts.
- MerchantProtocol.RunIsLater: does not say that a held claim is ever resolved, because a failed settlement holds it forever.
- SourceQueue.WaitingMeansProgress: does not say that the runtime eventually takes the possible step.
