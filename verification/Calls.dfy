/** The switch's service calls, cut at their store calls.  A call in flight is a
    `Phase`: the locals it holds while it waits to make its next store call or for
    an outside answer.  `Advance` runs one phase against the store. */
module Calls {
  import opened Wrappers
  import opened Text
  import opened Instants
  import opened Rail
  import opened Events
  import opened Store
  import opened Lifecycle
  import Fraud

  const SPI_CLAIM_TTL: int := 30 * SECOND
  const SPI_SUBMIT_TIMEOUT: int := 10 * SECOND
  const SPI_RETRY_DELAY: int := SECOND

  datatype Phase =
    | CreateFind(req: CreateRequest, hash: string)
    | CreateDecide(req: CreateRequest, hash: string)
    | CreateInsert(req: CreateRequest, hash: string, transfer: Transfer, events: seq<Event>, audit: AuditRecord)
    | CreateRefind(req: CreateRequest, hash: string)
    | SubmitClaim(tenant: string, id: string, correlation: string, token: string, until: Instant)
    | SubmitCall(tenant: string, id: string, correlation: string, token: string, until: Instant, current: Transfer)
    | SubmitRecord(tenant: string, id: string, token: string, message: SpiMessage, events: seq<Event>, audit: AuditRecord)
    | SubmitRelease(tenant: string, id: string, token: string, lastError: string, retryAt: Instant)
    | ReviewRead(review: ReviewRequest)
    | ReviewCommit(tenant: string, id: string, status: Status, reason: string, events: seq<Event>, audit: AuditRecord)
    | SettleRead(callback: SettlementCallback)
    | SettleCommit(callback: SettlementCallback, events: seq<Event>, audit: AuditRecord)

  /** What a caller is finally told. */
  datatype Answer =
    | Created(transfer: Transfer, replay: bool)
    | Submitted(transfer: Transfer, replay: bool)
    | Reviewed(transfer: Transfer)
    | Recorded(transfer: Transfer, replay: bool)
    | Refused(error: Error)

  datatype Move = Goes(phase: Phase) | Ends(answer: Answer)

  /** What the outside contributes to a phase: the limiters' and the resolver's
      answers and a new id, or the SPI client's answer. */
  datatype Input =
    | Nothing
    | Resolution(tenantAllowed: bool, dictAllowed: bool, dict: Result<DictEntry, Error>, newId: string)
    | SpiAnswer(answer: Result<SpiMessage, string>)

  predicate Fits(p: Phase, i: Input) {
    match p
    case CreateDecide(_, _) => i.Resolution?
    case SubmitCall(_, _, _, _, _, _) => i.SpiAnswer?
    case _ => i.Nothing?
  }

  // ------------------------------------------------------------------ create

  function BeginCreate(req: CreateRequest): Move {
    var norm := Normalise(req);
    if !ValidRequest(norm) then Ends(Refused(Validation))
    else Goes(CreateFind(norm, RequestFingerprint(norm)))
  }

  function NewTransfer(req: CreateRequest, hash: string, dict: DictEntry, decision: FraudDecision, id: string, now: Instant)
    : Transfer
  {
    Transfer(id, req.tenant, req.account, req.idempotencyKey, hash, req.correlation, "",
             req.amountCents, req.currency, req.receiverKey, req.receiverKeyType, dict.name,
             dict.bankIspb, dict.riskSignal, decision.score, decision.rules,
             decision.status, decision.reason, "", "", None, 0, "", "", now, now)
  }

  /** `CreateTransfer` appends its events one after another. */
  function CreationEvents(t: Transfer, now: Instant): seq<Event> {
    [Note(TransferRequested, t, t.correlation, now),
     Note(DictKeyResolved, t, t.correlation, now),
     Note(FraudScored, t, t.correlation, now)]
    + (match t.status
       case Accepted => [Note(TransferAccepted, t, t.correlation, now), Note(SpiSubmissionRequested, t, t.correlation, now)]
       case Review => [Note(ReviewRequested, t, t.correlation, now)]
       case Blocked => [Note(TransferBlocked, t, t.correlation, now)]
       case _ => [])
  }

  function CreationAudit(t: Transfer, now: Instant): AuditRecord {
    AuditRecord(t.tenant, t.account, t.id, TransferDecided, t.correlation, now)
  }

  function ReplayOrConflict(found: Transfer, hash: string): Move {
    if found.requestHash != "" && found.requestHash != hash then Ends(Refused(Conflict))
    else Ends(Created(found, true))
  }

  // ------------------------------------------------------------------ submit

  function BeginSubmit(tenant: string, id: string, correlation: string, token: string, now: Instant): Move {
    if Trim(tenant) == "" || Trim(id) == "" then Ends(Refused(Validation))
    else Goes(SubmitClaim(Trim(tenant), Trim(id), Trim(correlation), token, now + SPI_CLAIM_TTL))
  }

  function SubmissionEvents(t: Transfer, correlation: string, now: Instant): seq<Event> {
    [Note(SpiMessageCreated, t, correlation, now), Note(TransferApproved, t, correlation, now)]
  }

  function SubmissionAudit(t: Transfer, correlation: string, message: SpiMessage): AuditRecord {
    AuditRecord(t.tenant, t.account, t.id, SubmissionRecorded, correlation, message.submittedAt)
  }

  // ------------------------------------------------------------------ review

  function BeginReview(req: ReviewRequest, now: Instant): Move {
    var norm := req.(tenant := Trim(req.tenant), transferId := Trim(req.transferId),
                     correlation := Trim(req.correlation), reason := Trim(req.reason),
                     reviewedAt := if req.reviewedAt == ZERO_TIME then now else req.reviewedAt);
    if norm.tenant == "" || norm.transferId == "" then Ends(Refused(Validation)) else Goes(ReviewRead(norm))
  }

  function ReviewEvents(t: Transfer, status: Status, correlation: string, at: Instant): seq<Event> {
    if status.Accepted? then [Note(ReviewApproved, t, correlation, at), Note(SpiSubmissionRequested, t, correlation, at)]
    else [Note(ReviewBlocked, t, correlation, at), Note(TransferBlocked, t, correlation, at)]
  }

  function PrepareReview(s: State, r: ReviewRequest): Move {
    match GetTransfer(s, r.tenant, r.transferId)
    case Err(e) => Ends(Refused(e))
    case Ok(current) =>
      if !current.status.Review? then Ends(Refused(Conflict))
      else if r.decision.OtherDecision? then Ends(Refused(Validation))
      else
        var correlation := if r.correlation == "" then current.correlation else r.correlation;
        var status := if r.decision.Block? then Blocked else Accepted;
        var reason := if r.reason != "" then r.reason
                      else if status.Blocked? then "manual review blocked" else "manual review approved";
        Goes(ReviewCommit(r.tenant, r.transferId, status, reason,
                          ReviewEvents(current, status, correlation, r.reviewedAt),
                          AuditRecord(current.tenant, current.account, current.id, ReviewRecorded, correlation, r.reviewedAt)))
  }

  // -------------------------------------------------------------- settlement

  function BeginSettle(c: SettlementCallback, newCorrelation: string, now: Instant): Move {
    var c1 := c.(receivedAt := if c.receivedAt == ZERO_TIME then now else c.receivedAt,
                 correlation := if c.correlation == "" then newCorrelation else c.correlation);
    if c1.tenant == "" || c1.transferId == "" || c1.spiMessageId == "" then Ends(Refused(Validation))
    else Goes(SettleRead(c1.(callbackHash := EffectiveHash(c1))))
  }

  function PrepareSettlement(s: State, c: SettlementCallback): Move {
    match GetTransfer(s, c.tenant, c.transferId)
    case Err(e) => Ends(Refused(e))
    case Ok(current) =>
      if current.spiMessageId == "" || current.spiMessageId != c.spiMessageId then Ends(Refused(Conflict))
      else if c.status.OtherSettlement? then Ends(Refused(Validation))
      else
        var kind := if c.status.SettlementAccepted? then TransferSettled else TransferRejected;
        Goes(SettleCommit(c, [Note(kind, current, c.correlation, c.receivedAt)],
                          AuditRecord(current.tenant, current.account, current.id, SettlementRecorded, c.correlation, c.receivedAt)))
  }

  // ----------------------------------------------------------------- advance

  /** The store after one phase, and where the call goes from there. */
  datatype Effect = Effect(state: State, move: Move)

  function Advance(s: State, now: Instant, p: Phase, i: Input): Effect
    requires Fits(p, i)
  {
    match p
    case CreateFind(req, hash) =>
      (match FindByIdempotency(s, req.tenant, req.idempotencyKey)
       case Some(found) => Effect(s, ReplayOrConflict(found, hash))
       case None => Effect(s, Goes(CreateDecide(req, hash))))
    case CreateDecide(req, hash) =>
      if !i.tenantAllowed || !i.dictAllowed then Effect(s, Ends(Refused(RateLimited)))
      else (match i.dict
            case Err(e) => Effect(s, Ends(Refused(e)))
            case Ok(dict) =>
              var t := NewTransfer(req, hash, dict, Fraud.Decide(req.amountCents, req.account, dict), i.newId, now);
              Effect(s, Goes(CreateInsert(req, hash, t, CreationEvents(t, now), CreationAudit(t, now)))))
    case CreateInsert(req, hash, t, events, audit) =>
      var reply := InsertTransfer(s, t, events, [audit]);
      if reply.result.Ok? then Effect(reply.state, Ends(Created(t, false)))
      else Effect(reply.state, Goes(CreateRefind(req, hash)))
    case CreateRefind(req, hash) =>
      (match FindByIdempotency(s, req.tenant, req.idempotencyKey)
       case Some(found) => Effect(s, ReplayOrConflict(found, hash))
       case None => Effect(s, Ends(Refused(Conflict))))
    case SubmitClaim(tenant, id, correlation, token, until) =>
      var reply := ClaimSpi(s, tenant, id, token, until, now);
      (match reply.result
       case Err(e) => Effect(reply.state, Ends(Refused(e)))
       case Ok(o) =>
         if o.replay then Effect(reply.state, Ends(Submitted(o.transfer, true)))
         else Effect(reply.state, Goes(SubmitCall(tenant, id, if correlation == "" then o.transfer.correlation else correlation,
                                                  token, until, o.transfer))))
    case SubmitCall(tenant, id, correlation, token, until, current) =>
      (match i.answer
       case Ok(message) =>
         Effect(s, Goes(SubmitRecord(tenant, id, token, message, SubmissionEvents(current, correlation, now),
                                     SubmissionAudit(current, correlation, message))))
       case Err(text) => Effect(s, Goes(SubmitRelease(tenant, id, token, text, now + SPI_RETRY_DELAY))))
    case SubmitRecord(tenant, id, token, message, events, audit) =>
      var reply := RecordSpi(s, tenant, id, token, message, events, audit);
      Effect(reply.state, Ends(match reply.result case Err(e) => Refused(e) case Ok(o) => Submitted(o.transfer, o.replay)))
    case SubmitRelease(tenant, id, token, lastError, retryAt) =>
      Effect(ReleaseSpi(s, tenant, id, token, lastError, retryAt, now).state, Ends(Refused(Upstream(lastError))))
    case ReviewRead(review) => Effect(s, PrepareReview(s, review))
    case ReviewCommit(tenant, id, status, reason, events, audit) =>
      var reply := Store.RecordReview(s, tenant, id, status, reason, events, audit);
      Effect(reply.state, Ends(match reply.result case Err(e) => Refused(e) case Ok(t) => Reviewed(t)))
    case SettleRead(callback) => Effect(s, PrepareSettlement(s, callback))
    case SettleCommit(callback, events, audit) =>
      var reply := UpdateSettlement(s, callback.tenant, callback.transferId, callback, events, audit);
      Effect(reply.state, Ends(match reply.result case Err(e) => Refused(e) case Ok(o) => Recorded(o.transfer, o.replay)))
  }
}
