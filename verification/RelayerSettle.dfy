/**
  One settlement by the relayer plugin: bounded verification retries, one submission with capacity retries, polling,
  and the response. Clock readings, replies and exceptions are arbitrary; waiting takes at least the time asked for.
 */
module RelayerSettle {
  import opened Wrappers
  import opened JsText
  import opened X402
  import opened Soroban
  import opened PaymentWindow
  import opened VerifyReasons
  import opened RelayerVerify
  import opened RelayerVerifyTheorems
  import RelayerJson

  const BUFFER_MS := 2_000
  const POLL_INTERVAL_MS := 1000
  const MAX_SUBMIT_RETRIES := 3
  const INITIAL_BACKOFF_MS := 1000
  const VERIFY_RETRY_DELAYS_MS := [250, 750]

  // ---- Replies, records and the response ----

  datatype ChannelConfig = ChannelConfig(apiUrl: Option<string>, apiKey: Option<string>)

  datatype ChannelData = ChannelData(transactionId: Option<string>, status: Option<string>, hash: Option<string>)

  /** An answer, an error response with its two code fields, or any other exception. */
  datatype ServiceReply =
    | Answered(success: bool, data: ChannelData)
    | ServiceError(nestedCode: Option<string>, code: Option<string>)
    | ServiceThrew

  predicate PoolCapacity(reply: ServiceReply) {
    reply.ServiceError? && (reply.nestedCode == Some("POOL_CAPACITY") || reply.code == Some("POOL_CAPACITY"))
  }

  datatype Confirmation = Confirmation(status: string, hash: Option<string>) | WaitThrew

  datatype SendReply = SendAccepted(confirmation: Confirmation) | SendThrew

  datatype Wait = Wait(at: int, ms: int)

  datatype Submission = Submission(func: HostFunction, auth: seq<AuthEntry>, reply: ServiceReply)

  datatype Sending = Sending(
    contract: string, fn: string, args: seq<RelayerJson.Json>, auth: seq<AuthEntry>, reply: SendReply)

  datatype SettleReason =
    | PayloadMalformed
    | NetworkMismatch
    | NotVerified(reason: VerifyReason)
    | OperationUnsuitable
    | ChannelFailed
    | TransactionFailed
    | UnexpectedSettleError

  /** A response's transaction is None where the source leaves it undefined. */
  datatype Response =
    | Settled(transaction: Option<string>, network: string, payer: string)
    | Failed(reason: SettleReason, hash: string, network: string, named: Option<Native>)
    | SettleRaised

  /** Accepted, but only an identifier came back so far. */
  predicate AwaitsPoll(reply: ServiceReply) {
    reply.Answered? && reply.success && !Given(reply.data.hash) && Given(reply.data.transactionId)
  }

  predicate UsesChannel(channel: ChannelConfig) {
    Truthy(channel.apiUrl) && Truthy(channel.apiKey)
  }

  /** What a finished submission's answer settles at once; None when its transaction must be polled. */
  function SubmitResult(reply: ServiceReply, network: string, payer: string): Option<Response> {
    if !reply.Answered? then Some(Failed(ChannelFailed, "", network, Some(NString(payer))))
    else if !reply.success then Some(Failed(ChannelFailed, reply.data.hash.GetOr(""), network, Some(NString(payer))))
    else if Truthy(reply.data.hash) then Some(Settled(reply.data.hash, network, payer))
    else if !Truthy(reply.data.transactionId) then Some(Failed(ChannelFailed, "", network, Some(NString(payer))))
    else None
  }

  predicate StillRunning(reply: ServiceReply) {
    reply.Answered? && (!Truthy(reply.data.status) || reply.data.status.value in {"pending", "sent", "submitted"})
  }

  predicate ConfirmedWithHash(reply: ServiceReply) {
    reply.Answered? && reply.data.status == Some("confirmed") && Truthy(reply.data.hash)
  }

  /** What keeps polling going: an answer without a status, or with one of the three running ones. */
  predicate KeepsPolling(reply: ServiceReply) {
    && reply.Answered?
    && (reply.data.status == None || reply.data.status == Some("") || reply.data.status == Some("pending")
        || reply.data.status == Some("sent") || reply.data.status == Some("submitted"))
  }

  /** A present, non-empty hash or identifier. */
  predicate Given(s: Option<string>) {
    s != None && s != Some("")
  }

  const TIMED_OUT := Answered(false, ChannelData(None, Some("timeout"), None))

  function PollResult(reply: ServiceReply, network: string, payer: string): Response {
    if !reply.Answered? then Failed(ChannelFailed, "", network, Some(NString(payer)))
    else if ConfirmedWithHash(reply) then Settled(reply.data.hash, network, payer)
    else Failed(ChannelFailed, reply.data.hash.GetOr(""), network, Some(NString(payer)))
  }

  function SendResult(reply: SendReply, network: string, payer: string): Response {
    if reply.SendThrew? || reply.confirmation.WaitThrew?
    then Failed(UnexpectedSettleError, "", network, Some(NString(payer)))
    else if reply.confirmation.status == "confirmed" then Settled(reply.confirmation.hash, network, payer)
    else Failed(TransactionFailed, reply.confirmation.hash.GetOr(""), network, Some(NString(payer)))
  }

  /**
    The relayer path reports success without a transaction hash exactly when the confirmed transaction carries none;
    on the channel path a success always carries a non-empty one.
   */
  lemma SuccessCarriesHash(
    sent: SendReply, submitted: ServiceReply, polled: ServiceReply, network: string, payer: string)
    ensures SendResult(sent, network, payer).Settled? <==>
      sent.SendAccepted? && sent.confirmation.Confirmation? && sent.confirmation.status == "confirmed"
    ensures SendResult(sent, network, payer).Settled? ==>
      SendResult(sent, network, payer) == Settled(sent.confirmation.hash, network, payer)
    ensures !SendResult(sent, network, payer).Settled? ==>
      SendResult(sent, network, payer) ==
        if sent.SendAccepted? && sent.confirmation.Confirmation?
        then Failed(TransactionFailed, sent.confirmation.hash.GetOr(""), network, Some(NString(payer)))
        else Failed(UnexpectedSettleError, "", network, Some(NString(payer)))
    ensures SubmitResult(submitted, network, payer).Some? && SubmitResult(submitted, network, payer).value.Settled? ==>
      Given(SubmitResult(submitted, network, payer).value.transaction)
    ensures PollResult(polled, network, payer).Settled? ==> Given(PollResult(polled, network, payer).transaction)
  {
  }

  /** The last poll's answer, or the time-out when the transaction was still running. */
  function FinalPoll(polls: seq<ServiceReply>): ServiceReply
    requires polls != []
  {
    if KeepsPolling(polls[|polls| - 1]) then TIMED_OUT else polls[|polls| - 1]
  }

  function ChannelResponse(submissions: seq<Submission>, polls: seq<ServiceReply>, network: string, payer: string)
    : Response
    requires submissions != []
  {
    var early := SubmitResult(submissions[|submissions| - 1].reply, network, payer);
    if early.Some? then early.value
    else if polls == [] then Failed(ChannelFailed, "", network, Some(NString(payer)))
    else PollResult(FinalPoll(polls), network, payer)
  }

  /** A channel success: the last submission was accepted, and its answer or the last poll names the hash. */
  lemma ChannelSuccess(submissions: seq<Submission>, polls: seq<ServiceReply>, network: string, payer: string)
    requires submissions != []
    ensures
      var r, last := ChannelResponse(submissions, polls, network, payer), submissions[|submissions| - 1].reply;
      r.Settled? <==>
        && last.Answered? && last.success
        && (Given(last.data.hash) || (Given(last.data.transactionId) && polls != [] && Confirms(polls[|polls| - 1])))
    ensures
      var r, last := ChannelResponse(submissions, polls, network, payer), submissions[|submissions| - 1].reply;
      r.Settled? ==>
        && Given(r.transaction) && r.network == network && r.payer == payer
        && r.transaction == (if Given(last.data.hash) then last.data.hash else polls[|polls| - 1].data.hash)
  {
  }

  predicate Confirms(poll: ServiceReply) {
    poll.Answered? && poll.data.status == Some("confirmed") && Given(poll.data.hash)
  }

  /**
    Every other end is one failure of the channel; its hash is that of the answer that refused the submission or
    ended the polling, if it carries one.
   */
  lemma ChannelFailure(submissions: seq<Submission>, polls: seq<ServiceReply>, network: string, payer: string)
    requires submissions != [] && !ChannelResponse(submissions, polls, network, payer).Settled?
    ensures
      var r, last := ChannelResponse(submissions, polls, network, payer), submissions[|submissions| - 1].reply;
      && r.Failed? && r == Failed(ChannelFailed, r.hash, network, Some(NString(payer)))
      && (last.Answered? && !last.success ==> r.hash == last.data.hash.GetOr(""))
      && (last.Answered? && last.success && Given(last.data.transactionId) && polls != []
          && polls[|polls| - 1].Answered? && !KeepsPolling(polls[|polls| - 1]) ==>
            r.hash == polls[|polls| - 1].data.hash.GetOr(""))
      && (r.hash != "" ==> last.Answered? && (!last.success || polls != []))
  {
  }

  function TimeoutMs(req: Requirements): int {
    req.maxTimeoutSeconds * 1000
  }

  function DeadlineMs(start: int, req: Requirements): int {
    var bufferMs := if BUFFER_MS < TimeoutMs(req) / 2 then BUFFER_MS else TimeoutMs(req) / 2;
    start + TimeoutMs(req) - bufferMs
  }

  /** Two seconds are kept back, or half of a timeout shorter than four. */
  lemma DeadlineLeaves(start: int, req: Requirements)
    ensures DeadlineMs(start, req) ==
      if req.maxTimeoutSeconds >= 4 then start + 1000 * (req.maxTimeoutSeconds - 2)
      else start + 500 * req.maxTimeoutSeconds
  {
  }

  // ---- What the logs of one settlement must look like ----

  predicate Retryable(v: Verification) {
    v.Unverified? && v.reason.UnexpectedVerifyError?
  }

  /** The log's verifications, each against its own replies. */
  ghost predicate VerifiedInTurn(log: seq<Verification>, p: Params, c: Config, envs: nat -> Env) {
    forall i: nat {:trigger Verify(p, c, envs(i))} :: i < |log| ==> log[i] == Verify(p, c, envs(i))
  }

  lemma TurnSnoc(log: seq<Verification>, v: Verification, p: Params, c: Config, envs: nat -> Env)
    requires VerifiedInTurn(log, p, c, envs) && v == Verify(p, c, envs(|log|))
    ensures VerifiedInTurn(log + [v], p, c, envs)
  {
  }

  lemma LastVerified(log: seq<Verification>, p: Params, c: Config, envs: nat -> Env)
    requires log != [] && VerifiedInTurn(log, p, c, envs) && log[|log| - 1].Verified?
    ensures Admissible(p, c, envs(|log| - 1), log[|log| - 1].payer)
    ensures OperationError(p.tx, p.req).None?
  {
    VerifiedIffAdmissible(p, c, envs(|log| - 1), log[|log| - 1].payer);
  }

  lemma HasOperation(log: seq<Verification>, p: Params, c: Config, envs: nat -> Env)
    requires log != [] && VerifiedInTurn(log, p, c, envs) && log[|log| - 1].Verified?
    ensures OperationError(p.tx, p.req).None?
  {
    LastVerified(log, p, c, envs);
  }

  /** At most three verifications, each but the last ending in the retryable error. */
  predicate BoundedVerifications(log: seq<Verification>) {
    |log| <= 3 && forall i :: 0 <= i < |log| - 1 ==> log[i].Unverified? && log[i].reason == UnexpectedVerifyError
  }

  /** At most four submissions, each but the last refused for capacity: so at most one is accepted. */
  predicate BoundedSubmissions(log: seq<Submission>) {
    |log| <= 4 && forall i :: 0 <= i < |log| - 1 ==> RefusedForCapacity(log[i].reply)
  }

  /** An error response that names the pool's capacity in either place. */
  predicate RefusedForCapacity(reply: ServiceReply) {
    reply.ServiceError? && Some("POOL_CAPACITY") in [reply.nestedCode, reply.code]
  }

  const CAPACITY_DELAYS_MS := [1000, 2000, 4000]

  predicate WaitsEndBefore(log: seq<Wait>, deadline: int) {
    forall i :: 0 <= i < |log| ==> log[i].at + log[i].ms < deadline
  }

  /**
    A transaction accepted without a hash is polled while there is time: every poll but the last found it running,
    and so did the last only if the deadline has passed.
   */
  predicate PolledUntil(submissions: seq<Submission>, polls: seq<ServiceReply>, now: int, deadlineMs: int) {
    && (forall i :: 0 <= i < |polls| - 1 ==> KeepsPolling(polls[i]))
    && (submissions != [] && AwaitsPoll(submissions[|submissions| - 1].reply) && now < deadlineMs ==>
          polls != [] && !KeepsPolling(polls[|polls| - 1]))
  }

  /** The settlement's own operation, unchanged. */
  predicate SubmitsOnly(log: seq<Submission>, op: Operation)
    requires op.InvokeHostFunction?
  {
    forall i :: 0 <= i < |log| ==> log[i].func == op.func && log[i].auth == op.auth
  }

  predicate SendsOnly(log: seq<Sending>, op: Operation)
    requires op.InvokeHostFunction? && op.func.InvokeContract?
  {
    forall i :: 0 <= i < |log| ==>
      && log[i].contract == op.func.contract && log[i].fn == op.func.fn
      && log[i].args == RelayerJson.EncodeAll(op.func.args) && log[i].auth == op.auth
  }

  // ---- What reaches the network ----

  /**
    Every submission is the required transfer with the verified payer, recipient and amount, and carries only signed
    address credentials without sub-invocations, one of them the payer's. None of them, and not the payer, is one of
    the addresses the facilitator is configured with at the deciding verification.
   */
  lemma SubmissionsAreRequired(
    log: seq<Verification>, submissions: seq<Submission>, p: Params, c: Config, envs: nat -> Env, i: nat)
    requires log != [] && VerifiedInTurn(log, p, c, envs) && log[|log| - 1].Verified?
    requires OperationError(p.tx, p.req).None? && SubmitsOnly(submissions, CallOf(p))
    requires i < |submissions|
    ensures envs(|log| - 1).relayer.RelayerInfo? && BigIntOf(p.req.amount).Some?
    ensures RequiredCall(submissions[i].func, p.req, log[|log| - 1].payer, BigIntOf(p.req.amount).value)
    ensures AllPlainSigned(submissions[i].auth) && HasEntryOf(submissions[i].auth, log[|log| - 1].payer)
    ensures SparesOwn(submissions[i].auth, log[|log| - 1].payer, envs(|log| - 1).relayer.address, c)
  {
    LastVerified(log, p, c, envs);
  }

  /**
    On the relayer path the JSON arguments decode to the verified ones, with the one exception of an amount in an
    integer type the JSON form lacks, which verification lets pass and decoding refuses.
   */
  lemma SendingsDecodeToRequired(
    log: seq<Verification>, sendings: seq<Sending>, p: Params, c: Config, envs: nat -> Env, i: nat)
    requires log != [] && VerifiedInTurn(log, p, c, envs) && log[|log| - 1].Verified?
    requires OperationError(p.tx, p.req).None? && SendsOnly(sendings, CallOf(p))
    requires i < |sendings|
    ensures envs(|log| - 1).relayer.RelayerInfo? && BigIntOf(p.req.amount).Some?
    ensures
      var args := RelayerJson.DecodeAll(sendings[i].args);
      && (args.Some? <==> !CallOf(p).func.args[2].Wide?)
      && (args.Some? ==> RequiredCall(InvokeContract(sendings[i].contract, sendings[i].fn, args.value), p.req,
                                      log[|log| - 1].payer, BigIntOf(p.req.amount).value))
    ensures AllPlainSigned(sendings[i].auth) && HasEntryOf(sendings[i].auth, log[|log| - 1].payer)
    ensures SparesOwn(sendings[i].auth, log[|log| - 1].payer, envs(|log| - 1).relayer.address, c)
  {
    LastVerified(log, p, c, envs);
    var f := CallOf(p).func;
    RelayerJson.DecodeEncodeAll(f.args);
    TransferArgsSupported(f, p.req, log[|log| - 1].payer, BigIntOf(p.req.amount).value);
  }

  lemma TransferArgsSupported(f: HostFunction, req: Requirements, payer: string, amount: int)
    requires RequiredCall(f, req, payer, amount)
    ensures RelayerJson.AllSupported(f.args) <==> !f.args[2].Wide?
  {
    var a, b, d := f.args[0], f.args[1], f.args[2];
    assert f.args[1..] == [b, d] && [b, d][1..] == [d] && [d][1..] == [];
    assert RelayerJson.AllSupported([d]) <==> RelayerJson.Supported(d);
    assert RelayerJson.AllSupported([b, d]) <==> RelayerJson.Supported(b) && RelayerJson.Supported(d);
  }

  /** The network errors found before any verification. */
  function EarlyResponse(p: Params, c: Config, relayer: RelayerReply): Option<Response> {
    if p.accepted.None? then Some(Failed(PayloadMalformed, "", "", None))
    else
      var network := p.accepted.value.network;
      if network != p.req.network || network != c.network then Some(Failed(NetworkMismatch, "", network, None))
      else if relayer.RelayerThrew? then Some(SettleRaised)
      else if !OnNetwork(relayer.network, c.network) then Some(Failed(NetworkMismatch, "", network, None))
      else None
  }

  /** The response the last verification and the two logs determine. */
  function Conclusion(
    last: Verification, submissions: seq<Submission>, polls: seq<ServiceReply>, sendings: seq<Sending>, network: string)
    : Response
    requires last.Verified? && submissions == [] ==> sendings != []
  {
    if last.Unverified? then Failed(NotVerified(last.reason), "", network, last.named)
    else if submissions != [] then ChannelResponse(submissions, polls, network, last.payer)
    else SendResult(sendings[0].reply, network, last.payer)
  }

  /**
    A confirmation reached in time settles. When a submission was accepted with an identifier only and the settlement
    ends before its deadline, polling has gone on through every running status to a first other answer, and the
    response is a success exactly when that answer confirms the transaction with a hash, which it then carries.
   */
  lemma TimelyConfirmationSettles(
    last: Verification, submissions: seq<Submission>, polls: seq<ServiceReply>, sendings: seq<Sending>, network: string,
    now: int, deadlineMs: int)
    requires last.Verified? && submissions != [] && AwaitsPoll(submissions[|submissions| - 1].reply)
    requires PolledUntil(submissions, polls, now, deadlineMs) && now < deadlineMs
    ensures polls != [] && !KeepsPolling(polls[|polls| - 1])
    ensures forall i :: 0 <= i < |polls| - 1 ==> KeepsPolling(polls[i])
    ensures
      var r, end := Conclusion(last, submissions, polls, sendings, network), polls[|polls| - 1];
      && (r.Settled? <==>
            end.Answered? && end.data.status == Some("confirmed") && end.data.hash != None && end.data.hash != Some(""))
      && (r.Settled? ==> r == Settled(end.data.hash, network, last.payer))
      && (!r.Settled? ==> r == Failed(ChannelFailed, if end.Answered? then end.data.hash.GetOr("") else "", network,
                                      Some(NString(last.payer))))
  {
    ChannelSuccess(submissions, polls, network, last.payer);
  }

  // ---- The settlement ----

  /** One settle call: its inputs, the clock, and a log of every call it makes. */
  class Settlement {
    const p: Params
    const c: Config
    const channel: ChannelConfig
    const envs: nat -> Env
    var now: int
    var verifications: seq<Verification>
    var waits: seq<Wait>
    var submissions: seq<Submission>
    var polls: seq<ServiceReply>
    var sendings: seq<Sending>

    ghost predicate Untouched()
      reads this
    {
      && |verifications| == 0 && |waits| == 0 && |submissions| == 0 && |polls| == 0 && |sendings| == 0
    }

    constructor (p: Params, c: Config, channel: ChannelConfig, envs: nat -> Env, start: int)
      ensures this.p == p && this.c == c && this.channel == channel && this.envs == envs
      ensures now == start && Untouched()
    {
      this.p, this.c, this.channel, this.envs, this.now := p, c, channel, envs, start;
      verifications, waits, submissions, polls, sendings := [], [], [], [], [];
    }

    /** Time passes: at least the given span. */
    method Elapse(span: nat)
      modifies this`now
      ensures now >= old(now) + span
    {
      var later: int := *;
      now := if later < now + span then now + span else later;
    }

    method WaitFor(ms: nat)
      modifies this`now, this`waits
      ensures waits == old(waits) + [Wait(old(now), ms)]
      ensures now >= old(now) + ms
    {
      waits := waits + [Wait(now, ms)];
      Elapse(ms);
    }

    /** Each verification meets its own replies. */
    method VerifyOnce() returns (v: Verification)
      requires VerifiedInTurn(verifications, p, c, envs)
      modifies this`now, this`verifications
      ensures VerifiedInTurn(verifications, p, c, envs)
      ensures verifications == old(verifications) + [v]
      ensures now >= old(now)
    {
      v := VerifyPayment(p, c, envs(|verifications|));
      TurnSnoc(verifications, v, p, c, envs);
      verifications := verifications + [v];
      Elapse(0);
    }

    method CallService() returns (reply: ServiceReply)
      modifies this`now
      ensures now >= old(now)
    {
      reply := *;
      Elapse(0);
    }

    method VerifyForSettlement(deadlineMs: int) returns (result: Verification)
      requires Untouched()
      modifies this`now, this`verifications, this`waits
      ensures BoundedVerifications(verifications) && verifications != []
      ensures result == verifications[|verifications| - 1]
      ensures VerifiedInTurn(verifications, p, c, envs)
      ensures result.Unverified? && result.reason == UnexpectedVerifyError && |verifications| < 3 ==>
                now + [250, 750][|verifications| - 1] >= deadlineMs
      ensures |waits| == |verifications| - 1 && WaitsEndBefore(waits, deadlineMs)
      ensures forall i :: 0 <= i < |waits| ==> waits[i].ms == [250, 750][i]
      ensures now >= old(now)
    {
      result := VerifyOnce();
      for i := 0 to |VERIFY_RETRY_DELAYS_MS|
        invariant |verifications| == i + 1 && |waits| == i
        invariant forall j :: 0 <= j < i ==> Retryable(verifications[j])
        invariant result == verifications[i] && VerifiedInTurn(verifications, p, c, envs)
        invariant WaitsEndBefore(waits, deadlineMs)
        invariant forall j :: 0 <= j < i ==> waits[j].ms == VERIFY_RETRY_DELAYS_MS[j]
        invariant now >= old(now)
      {
        var delayMs := VERIFY_RETRY_DELAYS_MS[i];
        if !Retryable(result) {
          return;
        }
        if now + delayMs >= deadlineMs {
          return;
        }
        WaitFor(delayMs);
        result := VerifyOnce();
      }
    }

    /** Submit, and again after each capacity error while the backoff fits before the deadline. */
    method SubmitWithRetries(op: Operation, deadlineMs: int) returns (reply: ServiceReply)
      requires op.InvokeHostFunction?
      requires |submissions| == 0 && WaitsEndBefore(waits, deadlineMs)
      modifies this`now, this`waits, this`submissions
      ensures BoundedSubmissions(submissions) && SubmitsOnly(submissions, op)
      ensures |submissions| >= 1 && reply == submissions[|submissions| - 1].reply
      ensures WaitsEndBefore(waits, deadlineMs)
      ensures |waits| == |old(waits)| + |submissions| - 1
      ensures forall i :: 0 <= i < |submissions| - 1 ==> waits[|old(waits)| + i].ms == CAPACITY_DELAYS_MS[i]
      ensures RefusedForCapacity(reply) && |submissions| < 4 ==>
                now + CAPACITY_DELAYS_MS[|submissions| - 1] >= deadlineMs
      ensures now >= old(now)
    {
      var attempt := 0;
      while true
        invariant 0 <= attempt <= MAX_SUBMIT_RETRIES && |submissions| == attempt
        invariant SubmitsOnly(submissions, op)
        invariant forall i :: 0 <= i < attempt ==> RefusedForCapacity(submissions[i].reply)
        invariant WaitsEndBefore(waits, deadlineMs) && |waits| == |old(waits)| + attempt
        invariant forall i :: 0 <= i < attempt ==> waits[|old(waits)| + i].ms == CAPACITY_DELAYS_MS[i]
        invariant now >= old(now)
        decreases MAX_SUBMIT_RETRIES - attempt
      {
        reply := CallService();
        submissions := submissions + [Submission(op.func, op.auth, reply)];
        if !PoolCapacity(reply) || attempt == MAX_SUBMIT_RETRIES {
          return;
        }
        var backoffMs := Backoff(attempt);
        BackoffDoubles(attempt);
        if deadlineMs - now <= backoffMs {
          return;
        }
        WaitFor(backoffMs);
        attempt := attempt + 1;
      }
    }

    /**
      Poll until the service throws or answers with a status that is given and not a running one; that answer is the
      result. Only when the time is used up does polling end on a running transaction, with a time-out.
     */
    method PollTransactionStatus(timeoutMs: int) returns (reply: ServiceReply)
      requires timeoutMs > 0 && |polls| == 0
      modifies this`now, this`polls
      ensures 1 <= |polls| <= CeilDiv(timeoutMs, POLL_INTERVAL_MS)
      ensures forall i :: 0 <= i < |polls| - 1 ==> KeepsPolling(polls[i])
      ensures !KeepsPolling(polls[|polls| - 1]) ==> reply == polls[|polls| - 1]
      ensures KeepsPolling(polls[|polls| - 1]) ==>
                reply == Answered(false, ChannelData(None, Some("timeout"), None)) && now >= old(now) + timeoutMs
      ensures now >= old(now)
    {
      var start := now;
      var deadline := now + timeoutMs;
      while now < deadline
        invariant now >= deadline || now >= start + POLL_INTERVAL_MS * |polls|
        invariant |polls| <= CeilDiv(timeoutMs, POLL_INTERVAL_MS)
        invariant |polls| == 0 ==> now == start
        invariant forall i :: 0 <= i < |polls| ==> KeepsPolling(polls[i])
        decreases deadline - now
      {
        reply := CallService();
        polls := polls + [reply];
        if !StillRunning(reply) {
          return;
        }
        var remaining := deadline - now;
        if remaining <= 0 {
          break;
        }
        Elapse(if remaining < POLL_INTERVAL_MS then remaining else POLL_INTERVAL_MS);
      }
      reply := TIMED_OUT;
    }

    method SettleViaChannel(op: Operation, network: string, deadlineMs: int, payer: string) returns (r: Response)
      requires op.InvokeHostFunction?
      requires |submissions| == 0 && |polls| == 0 && WaitsEndBefore(waits, deadlineMs)
      modifies this`now, this`waits, this`submissions, this`polls
      ensures BoundedSubmissions(submissions) && SubmitsOnly(submissions, op)
      ensures WaitsEndBefore(waits, deadlineMs)
      ensures |polls| <= Max(0, CeilDiv(deadlineMs - old(now), POLL_INTERVAL_MS))
      ensures |submissions| >= 1 && r == ChannelResponse(submissions, polls, network, payer)
      ensures PolledUntil(submissions, polls, now, deadlineMs)
    {
      var reply := SubmitWithRetries(op, deadlineMs);
      var early := SubmitResult(reply, network, payer);
      if early.Some? {
        return early.value;
      }
      var remainingMs := deadlineMs - now;
      if remainingMs <= 0 {
        return Failed(ChannelFailed, "", network, Some(NString(payer)));
      }
      var final := PollTransactionStatus(remainingMs);
      r := PollResult(final, network, payer);
    }

    method SettleViaRelayer(op: Operation, network: string, payer: string) returns (r: Response)
      requires op.InvokeHostFunction? && op.func.InvokeContract?
      requires |sendings| == 0
      modifies this`now, this`sendings
      ensures SendsOnly(sendings, op) && |sendings| == 1
      ensures r == SendResult(sendings[0].reply, network, payer)
    {
      var args := op.func.args;
      var jsonArgs: seq<RelayerJson.Json> := [];
      for i := 0 to |args|
        invariant jsonArgs + RelayerJson.EncodeAll(args[i..]) == RelayerJson.EncodeAll(args)
      {
        jsonArgs := jsonArgs + [RelayerJson.Encode(args[i])];
        assert args[i..][1..] == args[i + 1..];
      }
      assert args[|args|..] == [];
      var reply: SendReply := *;
      Elapse(0);
      sendings := [Sending(op.func.contract, op.func.fn, jsonArgs, op.auth, reply)];
      r := SendResult(reply, network, payer);
    }

    /** Everything one settlement may have done. */
    ghost predicate Outcome(start: int)
      reads this
    {
      && BoundedVerifications(verifications) && VerifiedInTurn(verifications, p, c, envs)
      && BoundedSubmissions(submissions)
      && (forall i :: 0 <= i < |submissions| && submissions[i].reply.Answered? ==> i == |submissions| - 1)
      && PolledUntil(submissions, polls, now, DeadlineMs(start, p.req))
      && |polls| <= Max(0, p.req.maxTimeoutSeconds)
      && WaitsEndBefore(waits, DeadlineMs(start, p.req))
      && if verifications != [] && verifications[|verifications| - 1].Verified? then ActedAsVerified()
         else submissions == [] && sendings == []
    }

    /** Only the verified operation went out, by the configured path. */
    ghost predicate ActedAsVerified()
      reads this
    {
      && OperationError(p.tx, p.req).None?
      && SubmitsOnly(submissions, CallOf(p)) && SendsOnly(sendings, CallOf(p))
      && if Given(channel.apiUrl) && Given(channel.apiKey) then submissions != [] && sendings == []
         else submissions == [] && |sendings| == 1
    }

    method Settle(relayer: RelayerReply) returns (r: Response)
      requires Untouched()
      modifies this
      ensures Outcome(old(now))
      ensures EarlyResponse(p, c, relayer).Some? ==> r == EarlyResponse(p, c, relayer).value && Untouched()
      ensures EarlyResponse(p, c, relayer).None? ==>
                && verifications != []
                && r == Conclusion(
                     verifications[|verifications| - 1], submissions, polls, sendings, p.accepted.value.network)
    {
      var deadlineMs := DeadlineMs(now, p.req);
      if p.accepted.None? {
        return Failed(PayloadMalformed, "", "", None);
      }
      var network := p.accepted.value.network;
      if network != p.req.network || network != c.network {
        return Failed(NetworkMismatch, "", network, None);
      }
      if relayer.RelayerThrew? {
        return SettleRaised;
      }
      if StellarNetworkOf(relayer.network) != c.network {
        return Failed(NetworkMismatch, "", network, None);
      }
      var verified := VerifyForSettlement(deadlineMs);
      if verified.Unverified? {
        return Failed(NotVerified(verified.reason), "", network, verified.named);
      }
      HasOperation(verifications, p, c, envs);
      r := SubmitVerified(network, deadlineMs, verified.payer);
    }

    /** The transaction's one operation goes out by the configured path. */
    method SubmitVerified(network: string, deadlineMs: int, payer: string) returns (r: Response)
      requires OperationError(p.tx, p.req).None?
      requires |submissions| == 0 && |polls| == 0 && |sendings| == 0 && WaitsEndBefore(waits, deadlineMs)
      modifies this`now, this`waits, this`submissions, this`polls, this`sendings
      ensures BoundedSubmissions(submissions) && WaitsEndBefore(waits, deadlineMs)
      ensures |polls| <= Max(0, CeilDiv(deadlineMs - old(now), POLL_INTERVAL_MS))
      ensures ActedAsVerified() && PolledUntil(submissions, polls, now, deadlineMs)
      ensures r == if UsesChannel(channel) then ChannelResponse(submissions, polls, network, payer)
                   else SendResult(sendings[0].reply, network, payer)
    {
      var op := p.tx.value.operations[0];
      if UsesChannel(channel) {
        r := SettleViaChannel(op, network, deadlineMs, payer);
      } else {
        r := SettleViaRelayer(op, network, payer);
      }
    }
  }

  lemma BackoffDoubles(attempt: nat)
    requires attempt < 3
    ensures Backoff(attempt) == CAPACITY_DELAYS_MS[attempt]
  {
    assert Backoff(0) == 1000 && Backoff(1) == 2000;
  }

  function Backoff(attempt: nat): nat {
    if attempt == 0 then INITIAL_BACKOFF_MS else 2 * Backoff(attempt - 1)
  }
}
