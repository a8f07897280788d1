/** What each service call comes to when nothing happens in between, case by case and field by
    field, in terms of the request, the directory entry, the client's answer and the stored
    transfer. */
module Outcomes {
  import opened Wrappers
  import opened Instants
  import opened Text
  import opened Rail
  import opened Events
  import opened Outbox
  import opened Store
  import opened Lifecycle
  import opened Calls
  import opened Solo
  import Fraud

  /** The store tells of one state change of `t`: these events, in this order and numbered on,
      and one audit record, all about `t`. */
  ghost predicate Told(s: State, s': State, t: Transfer, kinds: seq<Kind>, correlation: string, at: Instant,
                       action: Action, auditedAt: Instant)
  {
    && |s'.events| == |s.events| + |kinds| && s'.events[..|s.events|] == s.events
    && s'.nextSeq == s.nextSeq + |kinds|
    && (forall i :: 0 <= i < |kinds| ==> Tells(s'.events[|s.events| + i], s.nextSeq + 1 + i, t, kinds[i], correlation, at))
    && |s'.audit| == |s.audit| + 1 && s'.audit[..|s.audit|] == s.audit
    && AuditTells(s'.audit[|s.audit|], t, action, correlation, auditedAt)
  }

  predicate Tells(r: OutboxRecord, sequence: int, t: Transfer, kind: Kind, correlation: string, at: Instant) {
    && r.sequence == sequence && r.availableAt == at
    && r.event.kind == kind && r.event.occurredAt == at && r.event.correlation == correlation
    && r.event.tenant == t.tenant && r.event.account == t.account && r.event.transferId == t.id
  }

  predicate AuditTells(r: AuditRecord, t: Transfer, action: Action, correlation: string, at: Instant) {
    && r.action == action && r.correlation == correlation && r.createdAt == at
    && r.tenant == t.tenant && r.account == t.account && r.transferId == t.id
  }

  /** A commit with prepared notes tells of its transfer. */
  lemma {:induction false} CommitTells(s: State, t: Transfer, t': Transfer, events: seq<Event>, audit: AuditRecord, kinds: seq<Kind>,
                    correlation: string, at: Instant, action: Action, auditedAt: Instant)
    requires |events| == |kinds| && forall i :: 0 <= i < |kinds| ==> events[i] == Event(kinds[i], t.tenant, t.account, t.id, correlation, at)
    requires audit == AuditRecord(t.tenant, t.account, t.id, action, correlation, auditedAt)
    ensures Told(s, Commit(s, t', events, [audit]), t, kinds, correlation, at, action, auditedAt)
  {
    forall i | 0 <= i < |kinds|
      ensures Tells(Commit(s, t', events, [audit]).events[|s.events| + i], s.nextSeq + 1 + i, t, kinds[i], correlation, at)
    {
      EnqueuedIs(s.events, s.nextSeq, events, i);
    }
  }

  /** Filing a key beside a commit tells no less. */
  lemma {:induction false} ToldBeside(s: State, s1: State, s2: State, t: Transfer, kinds: seq<Kind>, correlation: string, at: Instant,
                   action: Action, auditedAt: Instant)
    requires Told(s, s1, t, kinds, correlation, at, action, auditedAt)
    requires s2.events == s1.events && s2.audit == s1.audit && s2.nextSeq == s1.nextSeq
    ensures Told(s, s2, t, kinds, correlation, at, action, auditedAt)
  {
  }

  /** Index and callbacks are as they were. */
  ghost predicate SameKeys(s: State, s': State) {
    s'.idempotency == s.idempotency && s'.callbacks == s.callbacks
  }

  function Or(text: string, fallback: string): string {
    if text != "" then text else fallback
  }

  // -------------------------------------------------------------------- review

  /** A review under way ends by its decision, and in no other way. */
  lemma {:induction false} ReviewDecides(s: State, r: ReviewRequest, clock: Clock)
    requires Filed(s) && Trim(r.tenant) != "" && Trim(r.transferId) in s.transfers && Trim(r.transferId) != ""
    requires var t := s.transfers[Trim(r.transferId)]; t.tenant == Trim(r.tenant) && t.status == Review
    ensures var t := s.transfers[Trim(r.transferId)];
            var at := if r.reviewedAt == 0 then clock(0) else r.reviewedAt;
            var correlation := Or(Trim(r.correlation), t.correlation);
            var f := Alone(s, clock, 1, BeginReview(r, clock(0)), Nothing);
            && (r.decision == Approve ==>
                  && f.answer == Reviewed(t.(status := Accepted, updatedAt := at,
                                             decisionReason := Or(Trim(r.reason), "manual review approved")))
                  && f.state.transfers == s.transfers[t.id := f.answer.transfer] && SameKeys(s, f.state)
                  && Told(s, f.state, t, [ReviewApproved, SpiSubmissionRequested], correlation, at, ReviewRecorded, at))
            && (r.decision == Block ==>
                  && f.answer == Reviewed(t.(status := Blocked, updatedAt := at,
                                             decisionReason := Or(Trim(r.reason), "manual review blocked")))
                  && f.state.transfers == s.transfers[t.id := f.answer.transfer] && SameKeys(s, f.state)
                  && Told(s, f.state, t, [ReviewBlocked, TransferBlocked], correlation, at, ReviewRecorded, at))
            && (r.decision != Approve && r.decision != Block ==> f == Finished(s, Refused(Validation)))
  {
    var t := s.transfers[Trim(r.transferId)];
    var norm := r.(tenant := Trim(r.tenant), transferId := Trim(r.transferId), correlation := Trim(r.correlation),
                   reason := Trim(r.reason), reviewedAt := if r.reviewedAt == ZERO_TIME then clock(0) else r.reviewedAt);
    hide Trim, Told, Alone;
    AloneStep(s, clock, 1, ReviewRead(norm), Nothing);
    if r.decision == Approve || r.decision == Block {
      hide PrepareReview;
      ReviewCommits(s, norm, clock, t);
    } else {
      AloneEnds(s, clock, 2, PrepareReview(s, norm), Nothing);
    }
  }

  lemma {:induction false} ReviewCommits(s: State, r: ReviewRequest, clock: Clock, t: Transfer)
    requires Filed(s) && r.transferId in s.transfers && s.transfers[r.transferId] == t
    requires t.tenant == r.tenant && t.status == Review && (r.decision == Approve || r.decision == Block)
    ensures var correlation := Or(r.correlation, t.correlation);
            var f := Alone(s, clock, 2, PrepareReview(s, r), Nothing);
            && (r.decision == Approve ==>
                  && f.answer == Reviewed(t.(status := Accepted, updatedAt := r.reviewedAt,
                                             decisionReason := Or(r.reason, "manual review approved")))
                  && Told(s, f.state, t, [ReviewApproved, SpiSubmissionRequested], correlation, r.reviewedAt, ReviewRecorded, r.reviewedAt))
            && (r.decision == Block ==>
                  && f.answer == Reviewed(t.(status := Blocked, updatedAt := r.reviewedAt,
                                             decisionReason := Or(r.reason, "manual review blocked")))
                  && Told(s, f.state, t, [ReviewBlocked, TransferBlocked], correlation, r.reviewedAt, ReviewRecorded, r.reviewedAt))
            && f.answer.Reviewed? && f.state.transfers == s.transfers[t.id := f.answer.transfer] && SameKeys(s, f.state)
  {
    hide Told, Alone;
    var p := PrepareReview(s, r).phase;
    AloneStep(s, clock, 2, p, Nothing);
    var e := Advance(s, clock(2), p, Nothing);
    AloneEnds(e.state, clock, 3, e.move, Nothing);
    var kinds := if r.decision == Approve then [ReviewApproved, SpiSubmissionRequested] else [ReviewBlocked, TransferBlocked];
    var t' := e.move.answer.transfer;
    CommitTells(s, t, t', p.events, p.audit, kinds, Or(r.correlation, t.correlation), r.reviewedAt, ReviewRecorded, r.reviewedAt);
  }

  /** Every other review is refused and changes nothing. */
  lemma {:induction false} ReviewIsRefused(s: State, r: ReviewRequest, clock: Clock)
    ensures var f := Alone(s, clock, 1, BeginReview(r, clock(0)), Nothing);
            var known := Trim(r.transferId) in s.transfers && s.transfers[Trim(r.transferId)].tenant == Trim(r.tenant);
            && (Trim(r.tenant) == "" || Trim(r.transferId) == "" ==> f == Finished(s, Refused(Validation)))
            && (Trim(r.tenant) != "" && Trim(r.transferId) != "" && !known ==> f == Finished(s, Refused(NotFound)))
            && (Trim(r.tenant) != "" && Trim(r.transferId) != "" && known && s.transfers[Trim(r.transferId)].status != Review ==>
                  f == Finished(s, Refused(Conflict)))
  {
    hide Trim;
  }

  // ---------------------------------------------------------------- submission

  /** A transfer that a worker can claim now, for thirty seconds from `preparedAt`. */
  predicate Claimable(t: Transfer, token: string, preparedAt: Instant, now: Instant) {
    && t.status == Accepted && Trim(token) != "" && now < preparedAt + 30_000_000_000
    && (t.claimedUntil.Some? ==> t.claimedUntil.value <= now)
  }

  function Claimed(t: Transfer, token: string, preparedAt: Instant, now: Instant): Transfer {
    t.(claimToken := token, claimedUntil := Some(preparedAt + 30_000_000_000), attempts := t.attempts + 1,
       lastError := "", updatedAt := now)
  }

  ghost predicate Submits(s: State, tenant: string, id: string, t: Transfer) {
    && Filed(s) && Trim(tenant) != "" && Trim(id) != ""
    && Trim(id) in s.transfers && s.transfers[Trim(id)] == t && t.tenant == Trim(tenant)
  }

  /** The claim, and what the client is then asked with. */
  lemma {:induction false} SubmissionClaims(s: State, clock: Clock, tenant: string, id: string, correlation: string, token: string, outside: Input, t: Transfer)
    requires Submits(s, tenant, id, t) && Claimable(t, token, clock(0), clock(1)) && outside.SpiAnswer?
    ensures var t1 := Claimed(t, token, clock(0), clock(1));
            Alone(s, clock, 1, BeginSubmit(tenant, id, correlation, token, clock(0)), outside)
            == Alone(s.(transfers := s.transfers[t.id := t1]), clock, 2,
                     Goes(SubmitCall(t.tenant, t.id, Or(Trim(correlation), t.correlation), token, clock(0) + 30_000_000_000, t1)), outside)
  {
    hide Trim, Alone;
    AloneStep(s, clock, 1, SubmitClaim(Trim(tenant), Trim(id), Trim(correlation), token, clock(0) + SPI_CLAIM_TTL), outside);
  }

  lemma {:induction false} ClaimedIsStored(s: State, t: Transfer, t1: Transfer, t2: Transfer)
    requires t1.id == t.id && t2.id == t.id
    ensures s.transfers[t.id := t1][t.id := t2] == s.transfers[t.id := t2]
  {
  }

  /** A claimed submission that the client answers is approved under the answered identifiers,
      and told as such. */
  lemma {:induction false} SubmissionApproves(s: State, clock: Clock, tenant: string, id: string, correlation: string, token: string, m: SpiMessage, t: Transfer)
    requires Submits(s, tenant, id, t) && Claimable(t, token, clock(0), clock(1))
    requires Trim(m.messageId) != "" && Trim(m.endToEndId) != ""
    ensures var f := Alone(s, clock, 1, BeginSubmit(tenant, id, correlation, token, clock(0)), SpiAnswer(Ok(m)));
            && f.answer == Submitted(t.(status := Approved, spiMessageId := m.messageId, endToEndId := m.endToEndId,
                                        attempts := t.attempts + 1, lastError := "", claimToken := "", claimedUntil := None,
                                        updatedAt := m.submittedAt), false)
            && f.state.transfers == s.transfers[t.id := f.answer.transfer] && SameKeys(s, f.state)
            && Told(s, f.state, t, [SpiMessageCreated, TransferApproved], Or(Trim(correlation), t.correlation), clock(2),
                    SubmissionRecorded, m.submittedAt)
  {
    hide Trim, Alone, Told;
    SubmissionClaims(s, clock, tenant, id, correlation, token, SpiAnswer(Ok(m)), t);
    TokenIsNotEmpty(token);
    var t1 := Claimed(t, token, clock(0), clock(1));
    var s1 := s.(transfers := s.transfers[t.id := t1]);
    AnsweredRecords(s1, clock, t1, Or(Trim(correlation), t.correlation), token, clock(0) + 30_000_000_000, m);
    var f := Alone(s1, clock, 2, Goes(SubmitCall(t.tenant, t.id, Or(Trim(correlation), t.correlation), token, clock(0) + 30_000_000_000, t1)), SpiAnswer(Ok(m)));
    ClaimedIsStored(s, t, t1, f.answer.transfer);
    ToldAlike(s, s1, f.state, t, t1, [SpiMessageCreated, TransferApproved], Or(Trim(correlation), t.correlation), clock(2),
              SubmissionRecorded, m.submittedAt);
  }

  lemma {:induction false} TokenIsNotEmpty(token: string)
    ensures Trim(token) != "" ==> token != ""
  {
  }

  /** What is told after a claim is told of the transfer before it. */
  lemma {:induction false} ToldAlike(s: State, s1: State, s2: State, t: Transfer, t1: Transfer, kinds: seq<Kind>, correlation: string, at: Instant,
                  action: Action, auditedAt: Instant)
    requires Told(s1, s2, t1, kinds, correlation, at, action, auditedAt)
    requires s1.events == s.events && s1.audit == s.audit && s1.nextSeq == s.nextSeq
    requires t1.tenant == t.tenant && t1.account == t.account && t1.id == t.id
    ensures Told(s, s2, t, kinds, correlation, at, action, auditedAt)
  {
  }

  lemma {:induction false} AnsweredRecords(s: State, clock: Clock, t: Transfer, correlation: string, token: string, until: Instant, m: SpiMessage)
    requires t.id in s.transfers && s.transfers[t.id] == t && t.status == Accepted && t.claimToken == token != ""
    requires Trim(m.messageId) != "" && Trim(m.endToEndId) != ""
    ensures var f := Alone(s, clock, 2, Goes(SubmitCall(t.tenant, t.id, correlation, token, until, t)), SpiAnswer(Ok(m)));
            && f.answer == Submitted(t.(status := Approved, spiMessageId := m.messageId, endToEndId := m.endToEndId,
                                        lastError := "", claimToken := "", claimedUntil := None, updatedAt := m.submittedAt), false)
            && f.state.transfers == s.transfers[t.id := f.answer.transfer] && SameKeys(s, f.state)
            && Told(s, f.state, t, [SpiMessageCreated, TransferApproved], correlation, clock(2), SubmissionRecorded, m.submittedAt)
  {
    hide Trim, Alone, Told;
    var p := SubmitCall(t.tenant, t.id, correlation, token, until, t);
    AloneStep(s, clock, 2, p, SpiAnswer(Ok(m)));
    var q := SubmitRecord(t.tenant, t.id, token, m, SubmissionEvents(t, correlation, clock(2)), SubmissionAudit(t, correlation, m));
    AloneStep(s, clock, 3, q, SpiAnswer(Ok(m)));
    var e := Advance(s, clock(3), q, Nothing);
    AloneEnds(e.state, clock, 4, e.move, SpiAnswer(Ok(m)));
    CommitTells(s, t, e.move.answer.transfer, q.events, q.audit, [SpiMessageCreated, TransferApproved], correlation, clock(2),
                SubmissionRecorded, m.submittedAt);
  }

  /** A claimed submission that the client fails is released for a second, with the error kept. */
  lemma {:induction false} SubmissionIsReleased(s: State, clock: Clock, tenant: string, id: string, correlation: string, token: string, text: string, t: Transfer)
    requires Submits(s, tenant, id, t) && Claimable(t, token, clock(0), clock(1))
    ensures Alone(s, clock, 1, BeginSubmit(tenant, id, correlation, token, clock(0)), SpiAnswer(Err(text)))
            == Finished(s.(transfers := s.transfers[t.id := t.(attempts := t.attempts + 1, lastError := text, claimToken := "",
                                                              claimedUntil := Some(clock(2) + 1_000_000_000), updatedAt := clock(3))]),
                        Refused(Upstream(text)))
  {
    hide Trim, Alone;
    var outside := SpiAnswer(Err(text));
    SubmissionClaims(s, clock, tenant, id, correlation, token, outside, t);
    TokenIsNotEmpty(token);
    var t1 := Claimed(t, token, clock(0), clock(1));
    var s1 := s.(transfers := s.transfers[t.id := t1]);
    var p := SubmitCall(t.tenant, t.id, Or(Trim(correlation), t.correlation), token, clock(0) + 30_000_000_000, t1);
    AloneStep(s1, clock, 2, p, outside);
    var q := SubmitRelease(t.tenant, t.id, token, text, clock(2) + SPI_RETRY_DELAY);
    AloneStep(s1, clock, 3, q, outside);
    var e := Advance(s1, clock(3), q, Nothing);
    AloneEnds(e.state, clock, 4, e.move, outside);
    ClaimedIsStored(s, t, t1, t1.(claimToken := "", claimedUntil := Some(clock(2) + 1_000_000_000), lastError := text, updatedAt := clock(3)));
  }

  /** An answer with a blank identifier is refused, and the claim stays until it runs out. */
  lemma {:induction false} BlankAnswerIsRefused(s: State, clock: Clock, tenant: string, id: string, correlation: string, token: string, m: SpiMessage, t: Transfer)
    requires Submits(s, tenant, id, t) && Claimable(t, token, clock(0), clock(1))
    requires Trim(m.messageId) == "" || Trim(m.endToEndId) == ""
    ensures Alone(s, clock, 1, BeginSubmit(tenant, id, correlation, token, clock(0)), SpiAnswer(Ok(m)))
            == Finished(s.(transfers := s.transfers[t.id := t.(claimToken := token, claimedUntil := Some(clock(0) + 30_000_000_000),
                                                              attempts := t.attempts + 1, lastError := "", updatedAt := clock(1))]),
                        Refused(Validation))
  {
    hide Trim, Alone;
    var outside := SpiAnswer(Ok(m));
    SubmissionClaims(s, clock, tenant, id, correlation, token, outside, t);
    TokenIsNotEmpty(token);
    var t1 := Claimed(t, token, clock(0), clock(1));
    var s1 := s.(transfers := s.transfers[t.id := t1]);
    var correlation' := Or(Trim(correlation), t.correlation);
    var p := SubmitCall(t.tenant, t.id, correlation', token, clock(0) + 30_000_000_000, t1);
    AloneStep(s1, clock, 2, p, outside);
    var q := SubmitRecord(t.tenant, t.id, token, m, SubmissionEvents(t1, correlation', clock(2)), SubmissionAudit(t1, correlation', m));
    AloneStep(s1, clock, 3, q, outside);
    var e := Advance(s1, clock(3), q, Nothing);
    AloneEnds(e.state, clock, 4, e.move, outside);
  }

  /** Every other submission makes no claim and changes nothing. */
  lemma {:induction false} SubmissionIsRefused(s: State, clock: Clock, tenant: string, id: string, correlation: string, token: string, outside: Input)
    requires outside.SpiAnswer?
    ensures var f := Alone(s, clock, 1, BeginSubmit(tenant, id, correlation, token, clock(0)), outside);
            var named := Trim(tenant) != "" && Trim(id) != "";
            var known := Trim(id) in s.transfers && s.transfers[Trim(id)].tenant == Trim(tenant);
            && (!named ==> f == Finished(s, Refused(Validation)))
            && (named && !known ==> f == Finished(s, Refused(NotFound)))
            && (named && known ==>
                  var t := s.transfers[Trim(id)];
                  var done := t.status == Approved && t.spiMessageId != "";
                  && (done ==> f == Finished(s, Submitted(t, true)))
                  && (!done && (Trim(token) == "" || clock(0) + 30_000_000_000 <= clock(1)) ==> f == Finished(s, Refused(Validation)))
                  && (!done && Trim(token) != "" && clock(1) < clock(0) + 30_000_000_000 && !Claimable(t, token, clock(0), clock(1)) ==>
                        f == Finished(s, Refused(Conflict))))
  {
    hide Trim, Alone;
    if Trim(tenant) == "" || Trim(id) == "" {
      AloneEnds(s, clock, 1, BeginSubmit(tenant, id, correlation, token, clock(0)), outside);
    } else {
      var p := SubmitClaim(Trim(tenant), Trim(id), Trim(correlation), token, clock(0) + SPI_CLAIM_TTL);
      AloneStep(s, clock, 1, p, outside);
      var e := Advance(s, clock(1), p, Nothing);
      if e.move.Ends? {
        AloneEnds(e.state, clock, 2, e.move, outside);
      }
    }
  }

  /** The scan for work lists exactly what a claim would then take. */
  lemma {:induction false} PendingIffClaimable(t: Transfer, token: string, preparedAt: Instant, now: Instant)
    requires WellFormed(t) && Trim(token) != "" && now < preparedAt + 30_000_000_000
    ensures Pending(t, now) <==> ClaimSubmission(t, token, preparedAt + 30_000_000_000, now).Ok?
  {
    hide Trim;
  }

  // ---------------------------------------------------------------- settlement

  ghost predicate Reports(s: State, c: SettlementCallback, t: Transfer) {
    && Filed(s) && c.tenant != "" && c.transferId != "" && c.spiMessageId != ""
    && c.transferId in s.transfers && s.transfers[c.transferId] == t && t.tenant == c.tenant
  }

  /** The callback as the service passes it on. */
  function Completed(c: SettlementCallback, correlation: string, now: Instant): SettlementCallback {
    c.(receivedAt := if c.receivedAt == 0 then now else c.receivedAt, correlation := Or(c.correlation, correlation),
       callbackHash := Or(c.callbackHash, CallbackFingerprint(c)))
  }

  lemma {:induction false} CompletedIs(c: SettlementCallback, correlation: string, now: Instant)
    requires c.tenant != "" && c.transferId != "" && c.spiMessageId != ""
    ensures BeginSettle(c, correlation, now) == Goes(SettleRead(Completed(c, correlation, now)))
    ensures Completed(c, correlation, now).callbackHash != ""
  {
    FingerprintsAreNotEmpty(CreateRequest("", "", "", "", 0, "", "", "", ""), c);
    FingerprintLooksAtFive(c, c.(receivedAt := if c.receivedAt == ZERO_TIME then now else c.receivedAt,
                                 correlation := if c.correlation == "" then correlation else c.correlation));
    hide CallbackFingerprint;
  }

  lemma {:induction false} FingerprintLooksAtFive(c: SettlementCallback, d: SettlementCallback)
    requires c.tenant == d.tenant && c.transferId == d.transferId && c.spiMessageId == d.spiMessageId
    requires c.status == d.status && c.code == d.code
    ensures CallbackFingerprint(c) == CallbackFingerprint(d)
  {
  }

  /** The first callback for an approved transfer settles or rejects it by its status, with its
      code, and files the hash it came with, or else the fingerprint of what it says. */
  lemma {:induction false} SettlementDecides(s: State, c: SettlementCallback, newCorrelation: string, clock: Clock, t: Transfer)
    requires Reports(s, c, t) && t.spiMessageId == c.spiMessageId && t.status == Approved
    requires c.tenant + ":" + c.spiMessageId !in s.callbacks
    requires c.status == SettlementAccepted || c.status == SettlementRejected
    ensures var at := if c.receivedAt == 0 then clock(0) else c.receivedAt;
            var accepted := c.status == SettlementAccepted;
            var f := Alone(s, clock, 1, BeginSettle(c, newCorrelation, clock(0)), Nothing);
            && f.answer == Recorded(t.(status := if accepted then Settled else Rejected, settlementCode := c.code, updatedAt := at), false)
            && f.state.transfers == s.transfers[t.id := f.answer.transfer] && f.state.idempotency == s.idempotency
            && f.state.callbacks == s.callbacks[c.tenant + ":" + c.spiMessageId := Or(c.callbackHash, CallbackFingerprint(c))]
            && Told(s, f.state, t, [if accepted then TransferSettled else TransferRejected], Or(c.correlation, newCorrelation), at,
                    SettlementRecorded, at)
  {
    hide CallbackFingerprint, Told, Alone;
    CompletedIs(c, newCorrelation, clock(0));
    var full := Completed(c, newCorrelation, clock(0));
    AloneStep(s, clock, 1, SettleRead(full), Nothing);
    SettlementCommits(s, full, clock, t);
  }

  lemma {:induction false} SettlementCommits(s: State, c: SettlementCallback, clock: Clock, t: Transfer)
    requires Reports(s, c, t) && t.spiMessageId == c.spiMessageId && t.status == Approved && c.callbackHash != ""
    requires c.tenant + ":" + c.spiMessageId !in s.callbacks
    requires c.status == SettlementAccepted || c.status == SettlementRejected
    ensures var accepted := c.status == SettlementAccepted;
            var f := Alone(s, clock, 2, PrepareSettlement(s, c), Nothing);
            && f.answer == Recorded(t.(status := if accepted then Settled else Rejected, settlementCode := c.code, updatedAt := c.receivedAt), false)
            && f.state.transfers == s.transfers[t.id := f.answer.transfer] && f.state.idempotency == s.idempotency
            && f.state.callbacks == s.callbacks[c.tenant + ":" + c.spiMessageId := c.callbackHash]
            && Told(s, f.state, t, [if accepted then TransferSettled else TransferRejected], c.correlation, c.receivedAt,
                    SettlementRecorded, c.receivedAt)
  {
    hide CallbackFingerprint, Told, Alone;
    var p := PrepareSettlement(s, c).phase;
    AloneStep(s, clock, 2, p, Nothing);
    var e := Advance(s, clock(2), p, Nothing);
    AloneEnds(e.state, clock, 3, e.move, Nothing);
    var kinds := [if c.status == SettlementAccepted then TransferSettled else TransferRejected];
    var t' := e.move.answer.transfer;
    CommitTells(s, t, t', p.events, p.audit, kinds, c.correlation, c.receivedAt, SettlementRecorded, c.receivedAt);
    ToldBeside(s, Commit(s, t', p.events, [p.audit]), e.state, t, kinds, c.correlation, c.receivedAt, SettlementRecorded, c.receivedAt);
  }

  /** A callback for a transfer whose message id has a hash on file: the same hash replays, any
      other conflicts, nothing changes. */
  lemma {:induction false} SettlementRepeats(s: State, d: SettlementCallback, newCorrelation: string, clock: Clock, t: Transfer)
    requires Reports(s, d, t) && t.spiMessageId == d.spiMessageId
    requires d.tenant + ":" + d.spiMessageId in s.callbacks
    requires d.status == SettlementAccepted || d.status == SettlementRejected
    ensures Alone(s, clock, 1, BeginSettle(d, newCorrelation, clock(0)), Nothing)
            == Finished(s, if s.callbacks[d.tenant + ":" + d.spiMessageId] == Or(d.callbackHash, CallbackFingerprint(d))
                           then Recorded(t, true) else Refused(Conflict))
  {
    hide CallbackFingerprint, Alone;
    CompletedIs(d, newCorrelation, clock(0));
    var full := Completed(d, newCorrelation, clock(0));
    AloneStep(s, clock, 1, SettleRead(full), Nothing);
    var p := PrepareSettlement(s, full).phase;
    AloneStep(s, clock, 2, p, Nothing);
    var e := Advance(s, clock(2), p, Nothing);
    AloneEnds(e.state, clock, 3, e.move, Nothing);
  }

  predicate NoNuls(c: SettlementCallback) {
    NulFree(Trim(c.tenant)) && NulFree(Trim(c.transferId)) && NulFree(Trim(c.spiMessageId))
  }

  /** After `c` decided a transfer, a callback `d` about it replays exactly when it says the same:
      the same status and code when neither brings a hash, the same hash when both do. */
  lemma {:induction false} SettlementIsOneDecision(s: State, c: SettlementCallback, d: SettlementCallback, newCorrelation: string, other: string,
                                clock: Clock, later: Clock, t: Transfer)
    requires Reports(s, c, t) && t.spiMessageId == c.spiMessageId && t.status == Approved
    requires c.tenant + ":" + c.spiMessageId !in s.callbacks
    requires c.status == SettlementAccepted || c.status == SettlementRejected
    requires d.tenant == c.tenant && d.transferId == c.transferId && d.spiMessageId == c.spiMessageId && NoNuls(c)
    requires d.status == SettlementAccepted || d.status == SettlementRejected
    ensures var first := Alone(s, clock, 1, BeginSettle(c, newCorrelation, clock(0)), Nothing);
            var second := Alone(first.state, later, 1, BeginSettle(d, other, later(0)), Nothing);
            && first.answer.Recorded? && !first.answer.replay
            && (c.callbackHash == "" && d.callbackHash == "" ==>
                  second == Finished(first.state, if d.status == c.status && Trim(d.code) == Trim(c.code)
                                                  then Recorded(first.answer.transfer, true) else Refused(Conflict)))
            && (c.callbackHash != "" && d.callbackHash != "" ==>
                  second == Finished(first.state, if d.callbackHash == c.callbackHash
                                                  then Recorded(first.answer.transfer, true) else Refused(Conflict)))
  {
    SettlementDecides(s, c, newCorrelation, clock, t);
    SameSayingsSameHash(c, d);
    hide CallbackFingerprint, Alone, Told, Trim, NoNuls, BeginSettle;
    var first := Alone(s, clock, 1, BeginSettle(c, newCorrelation, clock(0)), Nothing);
    SettlementRepeats(first.state, d, other, later, first.answer.transfer);
  }

  lemma {:induction false} SameSayingsSameHash(c: SettlementCallback, d: SettlementCallback)
    requires d.tenant == c.tenant && d.transferId == c.transferId && d.spiMessageId == c.spiMessageId && NoNuls(c)
    requires c.status == SettlementAccepted || c.status == SettlementRejected
    requires d.status == SettlementAccepted || d.status == SettlementRejected
    ensures CallbackFingerprint(c) == CallbackFingerprint(d) <==> d.status == c.status && Trim(d.code) == Trim(c.code)
  {
    StatusTexts();
    hide Trim, CallbackFingerprint;
    CallbackFingerprintSeparates(c, d);
  }

  lemma {:induction false} StatusTexts()
    ensures StatusText(SettlementAccepted) == "accepted" && StatusText(SettlementRejected) == "rejected"
    ensures "accepted" != "rejected" && NulFree("accepted") && NulFree("rejected")
  {
    assert "accepted"[0] != "rejected"[0];
  }

  /** Every other callback is refused and changes nothing. */
  lemma {:induction false} SettlementIsRefused(s: State, c: SettlementCallback, newCorrelation: string, clock: Clock)
    ensures var f := Alone(s, clock, 1, BeginSettle(c, newCorrelation, clock(0)), Nothing);
            var named := c.tenant != "" && c.transferId != "" && c.spiMessageId != "";
            var known := c.transferId in s.transfers && s.transfers[c.transferId].tenant == c.tenant;
            && (!named ==> f == Finished(s, Refused(Validation)))
            && (named && !known ==> f == Finished(s, Refused(NotFound)))
            && (named && known && s.transfers[c.transferId].spiMessageId != c.spiMessageId ==> f == Finished(s, Refused(Conflict)))
            && (named && known && s.transfers[c.transferId].spiMessageId == c.spiMessageId ==>
                  var decides := c.status == SettlementAccepted || c.status == SettlementRejected;
                  && (!decides ==> f == Finished(s, Refused(Validation)))
                  && (decides && c.tenant + ":" + c.spiMessageId !in s.callbacks && s.transfers[c.transferId].status != Approved ==>
                        f == Finished(s, Refused(Conflict))))
  {
    hide CallbackFingerprint, Alone;
    if c.tenant == "" || c.transferId == "" || c.spiMessageId == "" {
      AloneEnds(s, clock, 1, BeginSettle(c, newCorrelation, clock(0)), Nothing);
    } else {
      CompletedIs(c, newCorrelation, clock(0));
      var full := Completed(c, newCorrelation, clock(0));
      AloneStep(s, clock, 1, SettleRead(full), Nothing);
      var prepared := PrepareSettlement(s, full);
      if prepared.Ends? {
        AloneEnds(s, clock, 2, prepared, Nothing);
      } else {
        AloneStep(s, clock, 2, prepared.phase, Nothing);
        var e := Advance(s, clock(2), prepared.phase, Nothing);
        AloneEnds(e.state, clock, 3, e.move, Nothing);
      }
    }
  }

  // -------------------------------------------------------------------- create

  /** What a request must hold, as given. */
  predicate Acceptable(r: CreateRequest) {
    && Trim(r.tenant) != "" && Trim(r.account) != "" && Trim(r.idempotencyKey) != "" && Trim(r.receiverKey) != ""
    && 1 <= r.amountCents <= 2_000_000
    && (r.currency == "" || r.currency == "BRL")
    && (r.receiverKeyType == "CPF" || r.receiverKeyType == "CNPJ" || r.receiverKeyType == "EMAIL"
        || r.receiverKeyType == "PHONE" || r.receiverKeyType == "EVP")
  }

  /** `t` is what the request asks for, with what the directory knows of the receiver. */
  predicate MadeFrom(t: Transfer, r: CreateRequest, dict: DictEntry, id: string, at: Instant) {
    && t.id == id && t.tenant == Trim(r.tenant) && t.account == Trim(r.account)
    && t.idempotencyKey == Trim(r.idempotencyKey) && t.correlation == Trim(r.correlation)
    && t.requestHash == RequestFingerprint(r)
    && t.amountCents == r.amountCents && t.currency == "BRL"
    && t.receiverKey == Trim(r.receiverKey) && t.receiverKeyType == r.receiverKeyType
    && t.receiverName == dict.name && t.receiverBank == dict.bankIspb && t.receiverRisk == dict.riskSignal
    && t.createdAt == at
  }

  /** It starts with the engine's verdict, unclaimed, unsubmitted and unsettled. */
  predicate StartsAs(t: Transfer, d: FraudDecision, at: Instant) {
    && t.fraudScore == d.score && t.fraudRules == d.rules && t.status == d.status && t.decisionReason == d.reason
    && t.spiMessageId == "" && t.endToEndId == "" && t.claimToken == "" && t.claimedUntil.None?
    && t.attempts == 0 && t.lastError == "" && t.settlementCode == "" && t.updatedAt == at
  }

  lemma {:induction false} NormalisedIs(r: CreateRequest)
    ensures ValidRequest(Normalise(r)) <==> Acceptable(r)
    ensures RequestFingerprint(Normalise(r)) == RequestFingerprint(r)
  {
    NormalisePreservesFingerprint(r);
    TrimIdempotent(r.tenant);
    TrimIdempotent(r.account);
    TrimIdempotent(r.idempotencyKey);
    TrimIdempotent(r.receiverKey);
    hide Trim, RequestFingerprint;
  }

  lemma {:induction false} NewTransferIsMadeFrom(r: CreateRequest, dict: DictEntry, d: FraudDecision, id: string, at: Instant)
    requires Acceptable(r)
    ensures var t := NewTransfer(Normalise(r), RequestFingerprint(r), dict, d, id, at);
            MadeFrom(t, r, dict, id, at) && StartsAs(t, d, at)
  {
    hide Trim, RequestFingerprint;
  }

  /** What a new transfer is announced by. */
  function Announced(status: Status): seq<Kind> {
    [TransferRequested, DictKeyResolved, FraudScored]
    + (if status == Accepted then [TransferAccepted, SpiSubmissionRequested]
       else if status == Review then [ReviewRequested]
       else [TransferBlocked])
  }

  /** A new, acceptable, allowed and resolved request makes the transfer it asks for. */
  lemma {:induction false} CreationMakes(s: State, r: CreateRequest, dict: DictEntry, id: string, clock: Clock)
    requires Acceptable(r) && Trim(r.tenant) + ":" + Trim(r.idempotencyKey) !in s.idempotency && id !in s.transfers
    ensures var f := Alone(s, clock, 0, BeginCreate(r), Resolution(true, true, Ok(dict), id));
            && f.answer.Created? && !f.answer.replay
            && var t := f.answer.transfer;
               && MadeFrom(t, r, dict, id, clock(1))
               && StartsAs(t, Fraud.Decide(r.amountCents, Trim(r.account), dict), clock(1))
               && f.state.transfers == s.transfers[id := t] && f.state.callbacks == s.callbacks
               && f.state.idempotency == s.idempotency[Trim(r.tenant) + ":" + Trim(r.idempotencyKey) := id]
               && Told(s, f.state, t, Announced(t.status), Trim(r.correlation), clock(1), TransferDecided, clock(1))
  {
    var outside := Resolution(true, true, Ok(dict), id);
    var req, hash := Normalise(r), RequestFingerprint(r);
    NormalisedIs(r);
    var t := NewTransfer(req, hash, dict, Fraud.Decide(req.amountCents, req.account, dict), id, clock(1));
    NewTransferIsMadeFrom(r, dict, Fraud.Decide(req.amountCents, req.account, dict), id, clock(1));
    Fraud.DecisionIs(req.amountCents, req.account, dict);
    hide Trim, RequestFingerprint, Alone, Told, Fraud.Decide, ValidRequest, CreationEvents, CreationAudit, NewTransfer, MadeFrom, StartsAs;
    AloneStep(s, clock, 0, CreateFind(req, hash), outside);
    AloneStep(s, clock, 1, CreateDecide(req, hash), outside);
    InsertionMakes(s, req, hash, t, clock, outside);
  }

  lemma {:induction false} InsertionMakes(s: State, req: CreateRequest, hash: string, t: Transfer, clock: Clock, outside: Input)
    requires outside.Resolution? && t.id !in s.transfers && t.tenant + ":" + t.idempotencyKey !in s.idempotency
    requires t.status == Accepted || t.status == Review || t.status == Blocked
    ensures var f := Alone(s, clock, 2, Goes(CreateInsert(req, hash, t, CreationEvents(t, clock(1)), CreationAudit(t, clock(1)))), outside);
            && f.answer == Created(t, false)
            && f.state.transfers == s.transfers[t.id := t] && f.state.callbacks == s.callbacks
            && f.state.idempotency == s.idempotency[t.tenant + ":" + t.idempotencyKey := t.id]
            && Told(s, f.state, t, Announced(t.status), t.correlation, clock(1), TransferDecided, clock(1))
  {
    hide Alone, Told;
    var at := clock(1);
    var p := CreateInsert(req, hash, t, CreationEvents(t, at), CreationAudit(t, at));
    AloneStep(s, clock, 2, p, outside);
    var e := Advance(s, clock(2), p, Nothing);
    AloneEnds(e.state, clock, 3, e.move, outside);
    CommitTells(s, t, t, p.events, p.audit, Announced(t.status), t.correlation, at, TransferDecided, at);
    ToldBeside(s, Commit(s, t, p.events, [p.audit]), e.state, t, Announced(t.status), t.correlation, at, TransferDecided, at);
  }

  /** Every other create makes nothing: a bound key replays or conflicts by its fingerprint, and
      what is malformed, limited or unresolved is refused as such. */
  lemma {:induction false} CreationIsRefused(s: State, r: CreateRequest, outside: Input, clock: Clock)
    requires outside.Resolution?
    ensures var f := Alone(s, clock, 0, BeginCreate(r), outside);
            var key := Trim(r.tenant) + ":" + Trim(r.idempotencyKey);
            && (!Acceptable(r) ==> f == Finished(s, Refused(Validation)))
            && (Acceptable(r) && key in s.idempotency && s.idempotency[key] in s.transfers ==>
                  var bound := s.transfers[s.idempotency[key]];
                  f == Finished(s, if bound.requestHash == "" || bound.requestHash == RequestFingerprint(r)
                                   then Created(bound, true) else Refused(Conflict)))
            && (Acceptable(r) && key !in s.idempotency ==>
                  && (!outside.tenantAllowed || !outside.dictAllowed ==> f == Finished(s, Refused(RateLimited)))
                  && (outside.tenantAllowed && outside.dictAllowed && outside.dict.Err? ==> f == Finished(s, Refused(outside.dict.error))))
  {
    NormalisedIs(r);
    var req, hash := Normalise(r), RequestFingerprint(r);
    hide Trim, RequestFingerprint, Alone, ValidRequest, CreationEvents, NewTransfer, Fraud.Decide;
    if !Acceptable(r) {
      AloneEnds(s, clock, 0, BeginCreate(r), outside);
    } else {
      AloneStep(s, clock, 0, CreateFind(req, hash), outside);
      var e := Advance(s, clock(0), CreateFind(req, hash), Nothing);
      if e.move.Ends? {
        AloneEnds(s, clock, 1, e.move, outside);
      } else {
        AloneStep(s, clock, 1, CreateDecide(req, hash), outside);
        var e1 := Advance(s, clock(1), CreateDecide(req, hash), outside);
        if e1.move.Ends? {
          AloneEnds(s, clock, 2, e1.move, outside);
        }
      }
    }
  }
}
