/** Each phase of each call, seen as a step of the store: it keeps the store
    consistent and only extends it. */
module StoreSteps {
  import opened Wrappers
  import opened Text
  import opened Instants
  import opened Rail
  import opened Events
  import opened Outbox
  import opened Store
  import opened Lifecycle
  import opened Calls
  import opened Consistency
  import Fraud
  import Int64

  predicate Known(s: State, tenant: string, id: string) {
    id in s.transfers && s.transfers[id].tenant == tenant
  }

  predicate RequestOk(req: CreateRequest, hash: string) {
    ColonFree(req.tenant) && hash != ""
  }

  /** A transfer that is ready to be inserted, with what explains it. */
  ghost predicate Ready(issuer: Issuer, t: Transfer, events: seq<Event>, audit: AuditRecord) {
    && Sound(issuer, t)
    && (t.status.Accepted? || t.status.Review? || t.status.Blocked?)
    && AllFor(events, t.id) && Kinds(events) == CreationKinds(t.status)
    && audit.transferId == t.id && audit.action.TransferDecided?
  }

  predicate Noted(id: string, events: seq<Event>, kinds: seq<Kind>, audit: AuditRecord, action: Action) {
    AllFor(events, id) && Kinds(events) == kinds && audit.transferId == id && audit.action == action
  }

  function SettlementKinds(c: SettlementCallback): seq<Kind> {
    [if c.status.SettlementAccepted? then TransferSettled else TransferRejected]
  }

  // -------------------------------------------------------------- extension

  lemma ExtendsReflexive(s: State)
    ensures Extends(s, s)
  {
  }

  lemma ReplaceExtends(s: State, t': Transfer)
    requires t'.id in s.transfers && Evolves(s.transfers[t'.id], t')
    ensures Extends(s, s.(transfers := s.transfers[t'.id := t']))
  {
  }

  lemma CommitExtends(s: State, t': Transfer, events: seq<Event>, audit: seq<AuditRecord>)
    requires t'.id in s.transfers ==> Evolves(s.transfers[t'.id], t')
    ensures Extends(s, Commit(s, t', events, audit))
  {
  }

  lemma FileExtends(s: State, s1: State, k: string, hash: string)
    requires Extends(s, s1) && s1.callbacks == s.callbacks && k !in s.callbacks
    ensures Extends(s, s1.(callbacks := s.callbacks[k := hash]))
  {
  }

  lemma IndexExtends(s: State, s1: State, k: string, id: string)
    requires Extends(s, s1) && s1.idempotency == s.idempotency && k !in s.idempotency
    ensures Extends(s, s1.(idempotency := s.idempotency[k := id]))
  {
  }

  // ------------------------------------------------------------- the phases

  lemma SoundAt(issuer: Issuer, s: State, id: string)
    requires Consistent(issuer, s) && id in s.transfers
    ensures s.transfers[id].id == id && Sound(issuer, s.transfers[id])
  {
  }

  lemma IdemKeyTaken(issuer: Issuer, s: State, t: Transfer)
    requires Consistent(issuer, s) && t.id !in s.transfers
    ensures IdemKey(t) in s.idempotency ==> s.idempotency[IdemKey(t)] != t.id
  {
  }

  lemma InsertStep(issuer: Issuer, s: State, t: Transfer, events: seq<Event>, audit: AuditRecord)
    requires Consistent(issuer, s) && Ready(issuer, t, events, audit) && t.id !in s.transfers
    ensures var r := InsertTransfer(s, t, events, [audit]);
            && Consistent(issuer, r.state) && Extends(s, r.state)
            && (r.result.Ok? <==> IdemKey(t) !in s.idempotency)
            && (r.result.Err? ==> r.state == s)
            && (r.result.Ok? ==> r.state.transfers == s.transfers[t.id := t])
  {
    hide Consistent, Extends;
    ExtendsReflexive(s);
    IdemKeyTaken(issuer, s, t);
    if IdemKey(t) !in s.idempotency {
      InsertKeeps(issuer, s, t, events, audit);
      CommitExtends(s, t, events, [audit]);
      IndexExtends(s, Commit(s, t, events, [audit]), IdemKey(t), t.id);
    }
  }

  lemma ClaimStep(issuer: Issuer, s: State, tenant: string, id: string, token: string, until: Instant, now: Instant)
    requires Consistent(issuer, s)
    ensures var r := ClaimSpi(s, tenant, id, token, until, now);
            Consistent(issuer, r.state) && Extends(s, r.state)
  {
    hide Consistent, Extends;
    ExtendsReflexive(s);
    var r := ClaimSpi(s, tenant, id, token, until, now);
    if r.result.Ok? && !r.result.value.replay {
      var t' := r.result.value.transfer;
      SoundAt(issuer, s, id);
      assert token != "";
      QuietChangeKeeps(issuer, s, t');
      ReplaceExtends(s, t');
    }
  }

  lemma ReleaseStep(issuer: Issuer, s: State, tenant: string, id: string, token: string, lastError: string,
                    retryAt: Instant, now: Instant)
    requires Consistent(issuer, s)
    ensures var r := ReleaseSpi(s, tenant, id, token, lastError, retryAt, now);
            Consistent(issuer, r.state) && Extends(s, r.state)
  {
    hide Consistent, Extends;
    ExtendsReflexive(s);
    var r := ReleaseSpi(s, tenant, id, token, lastError, retryAt, now);
    if r.state != s {
      SoundAt(issuer, s, id);
      var t' := ReleaseSubmission(s.transfers[id], token, lastError, retryAt, now).value;
      QuietChangeKeeps(issuer, s, t');
      ReplaceExtends(s, t');
    }
  }

  lemma SubmissionExplains(id: string, events: seq<Event>, audit: AuditRecord)
    requires Noted(id, events, SUBMISSION_KINDS, audit, SubmissionRecorded)
    ensures Explains(id, Accepted, Approved, events, audit)
  {
    forall actions
      ensures Replay(Trace(At(Accepted), actions), Kinds(events)) == Trace(At(Approved), actions + [audit.action])
    {
      SubmissionWord(actions);
    }
  }

  lemma RecordStep(issuer: Issuer, s: State, tenant: string, id: string, token: string, message: SpiMessage,
                   events: seq<Event>, audit: AuditRecord)
    requires Consistent(issuer, s) && issuer(message.messageId) == id
    requires Noted(id, events, SUBMISSION_KINDS, audit, SubmissionRecorded)
    ensures var r := RecordSpi(s, tenant, id, token, message, events, audit);
            Consistent(issuer, r.state) && Extends(s, r.state)
  {
    hide Consistent, Extends;
    ExtendsReflexive(s);
    var r := RecordSpi(s, tenant, id, token, message, events, audit);
    if r.result.Ok? && !r.result.value.replay {
      var t' := r.result.value.transfer;
      SoundAt(issuer, s, id);
      assert Trim("") == "";
      SubmissionExplains(id, events, audit);
      CommitKeeps(issuer, s, t', events, audit);
      CommitExtends(s, t', events, [audit]);
    }
  }

  lemma ReviewExplains(id: string, status: Status, events: seq<Event>, audit: AuditRecord)
    requires status.Accepted? || status.Blocked?
    requires Noted(id, events, ReviewKinds(status), audit, ReviewRecorded)
    ensures Explains(id, Review, status, events, audit)
  {
    forall actions
      ensures Replay(Trace(At(Review), actions), Kinds(events)) == Trace(At(status), actions + [audit.action])
    {
      ReviewWord(actions, status);
    }
  }

  lemma ReviewStep(issuer: Issuer, s: State, tenant: string, id: string, status: Status, reason: string,
                   events: seq<Event>, audit: AuditRecord)
    requires Consistent(issuer, s) && (status.Accepted? || status.Blocked?)
    requires Noted(id, events, ReviewKinds(status), audit, ReviewRecorded)
    ensures var r := Store.RecordReview(s, tenant, id, status, reason, events, audit);
            Consistent(issuer, r.state) && Extends(s, r.state)
  {
    hide Consistent, Extends;
    ExtendsReflexive(s);
    var r := Store.RecordReview(s, tenant, id, status, reason, events, audit);
    if r.result.Ok? {
      SoundAt(issuer, s, id);
      ReviewExplains(id, status, events, audit);
      CommitKeeps(issuer, s, r.result.value, events, audit);
      CommitExtends(s, r.result.value, events, [audit]);
    }
  }

  lemma SettlementExplains(id: string, c: SettlementCallback, events: seq<Event>, audit: AuditRecord)
    requires !c.status.OtherSettlement?
    requires Noted(id, events, SettlementKinds(c), audit, SettlementRecorded)
    ensures Explains(id, Approved, if c.status.SettlementAccepted? then Settled else Rejected, events, audit)
  {
    var to := if c.status.SettlementAccepted? then Settled else Rejected;
    forall actions
      ensures Replay(Trace(At(Approved), actions), Kinds(events)) == Trace(At(to), actions + [audit.action])
    {
      SettlementWord(actions, to);
    }
  }

  lemma SettleStep(issuer: Issuer, s: State, c: SettlementCallback, events: seq<Event>, audit: AuditRecord)
    requires Consistent(issuer, s) && !c.status.OtherSettlement?
    requires Noted(c.transferId, events, SettlementKinds(c), audit, SettlementRecorded)
    ensures var r := UpdateSettlement(s, c.tenant, c.transferId, c, events, audit);
            Consistent(issuer, r.state) && Extends(s, r.state)
  {
    hide Consistent, Extends;
    ExtendsReflexive(s);
    var r := UpdateSettlement(s, c.tenant, c.transferId, c, events, audit);
    if r.result.Ok? && !r.result.value.replay {
      var t' := r.result.value.transfer;
      SoundAt(issuer, s, c.transferId);
      SettlementExplains(c.transferId, c, events, audit);
      assert CallbackKey(t') == StoreKey(c.tenant, c.spiMessageId);
      SettleKeeps(issuer, s, t', EffectiveHash(c), events, audit);
      CommitExtends(s, t', events, [audit]);
      FileExtends(s, Commit(s, t', events, [audit]), CallbackKey(t'), EffectiveHash(c));
    }
  }

  // ------------------------------------------------ what the service prepares

  lemma NewTransferIsJudged(req: CreateRequest, hash: string, dict: DictEntry, id: string, now: Instant)
    ensures RiskJudged(NewTransfer(req, hash, dict, Fraud.Decide(req.amountCents, req.account, dict), id, now))
  {
    Fraud.SelfRuleFires(req.amountCents, dict.riskSignal, req.account == dict.accountHash);
    if 80 <= dict.riskSignal <= Int64.INT64_MAX {
      Fraud.HighRiskBlockedIffNoOverflow(req.amountCents, req.account, dict);
    }
  }

  lemma NewTransferIsReady(issuer: Issuer, req: CreateRequest, hash: string, dict: DictEntry, id: string, now: Instant)
    requires RequestOk(req, hash) && id != ""
    ensures var t := NewTransfer(req, hash, dict, Fraud.Decide(req.amountCents, req.account, dict), id, now);
            Ready(issuer, t, CreationEvents(t, now), CreationAudit(t, now))
  {
    var t := NewTransfer(req, hash, dict, Fraud.Decide(req.amountCents, req.account, dict), id, now);
    NewTransferIsJudged(req, hash, dict, id, now);
    var events := CreationEvents(t, now);
    assert Kinds(events) == CreationKinds(t.status);
  }

  lemma SubmissionIsNoted(t: Transfer, correlation: string, now: Instant, message: SpiMessage)
    ensures Noted(t.id, SubmissionEvents(t, correlation, now), SUBMISSION_KINDS,
                  SubmissionAudit(t, correlation, message), SubmissionRecorded)
  {
    assert Kinds(SubmissionEvents(t, correlation, now)) == SUBMISSION_KINDS;
  }

  lemma ReviewIsNoted(s: State, r: ReviewRequest)
    requires Filed(s) && PrepareReview(s, r).Goes?
    ensures var p := PrepareReview(s, r).phase;
            && p.ReviewCommit? && (p.status.Accepted? || p.status.Blocked?)
            && Noted(p.id, p.events, ReviewKinds(p.status), p.audit, ReviewRecorded)
  {
    var p := PrepareReview(s, r).phase;
    assert Kinds(p.events) == ReviewKinds(p.status);
  }

  lemma SettlementIsNoted(s: State, c: SettlementCallback)
    requires Filed(s) && PrepareSettlement(s, c).Goes?
    ensures var p := PrepareSettlement(s, c).phase;
            && p.SettleCommit? && p.callback == c && !c.status.OtherSettlement?
            && Known(s, c.tenant, c.transferId)
            && s.transfers[c.transferId].spiMessageId == c.spiMessageId != ""
            && Noted(c.transferId, p.events, SettlementKinds(c), p.audit, SettlementRecorded)
  {
    var p := PrepareSettlement(s, c).phase;
    assert Kinds(p.events) == SettlementKinds(c);
  }
}
