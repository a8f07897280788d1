/** The service object.  Its methods are the source's: they drive the store call
    by call, append events one by one and loop over batches.  Run without other
    actors in between, each is exactly the phases of `Calls` in order. */
module Service {
  import opened Wrappers
  import opened Text
  import opened Instants
  import opened Rail
  import opened Events
  import opened Outbox
  import opened Store
  import opened Lifecycle
  import opened Calls
  import opened Solo
  import opened Batch
  import Fraud

  class Service {
    const store: MemoryStore

    constructor (store: MemoryStore)
      ensures this.store == store
    {
      this.store := store;
    }

    method CreateTransfer(request: CreateRequest, outside: Input, clock: Clock) returns (answer: Answer)
      requires store.Valid() && outside.Resolution?
      modifies store
      ensures store.Valid()
      ensures Finished(store.View(), answer) == Alone(old(store.View()), clock, 0, BeginCreate(request), outside)
    {
      hide InsertTransfer, FindByIdempotency;
      var req := Normalise(request);
      if !ValidRequest(req) {
        return Refused(Validation);
      }
      var hash := RequestFingerprint(req);
      AloneStep(store.View(), clock, 0, CreateFind(req, hash), outside);
      AloneStep(store.View(), clock, 1, CreateDecide(req, hash), outside);
      var existing := store.Find(req.tenant, req.idempotencyKey);
      if existing.Some? {
        if existing.value.requestHash != "" && existing.value.requestHash != hash {
          return Refused(Conflict);
        }
        return Created(existing.value, true);
      }
      if !outside.tenantAllowed {
        return Refused(RateLimited);
      }
      if !outside.dictAllowed {
        return Refused(RateLimited);
      }
      if outside.dict.Err? {
        return Refused(outside.dict.error);
      }
      answer := DecideAndInsert(req, hash, outside, clock);
    }

    /** The second half of `CreateTransfer`: score, build, insert, and look again
        if another call got there first. */
    method DecideAndInsert(req: CreateRequest, hash: string, outside: Input, clock: Clock) returns (answer: Answer)
      requires store.Valid() && outside.Resolution? && outside.tenantAllowed && outside.dictAllowed && outside.dict.Ok?
      modifies store
      ensures store.Valid()
      ensures Finished(store.View(), answer) == Alone(old(store.View()), clock, 1, Goes(CreateDecide(req, hash)), outside)
    {
      hide InsertTransfer, FindByIdempotency, Fraud.Decide, CreationEvents, NewTransfer;
      var decision := Fraud.Score(req.amountCents, req.account, outside.dict.value);
      var now := clock(1);
      var transfer := NewTransfer(req, hash, outside.dict.value, decision, outside.newId, now);
      var outbox := CollectCreationEvents(transfer, now);
      var audit := AuditRecord(transfer.tenant, transfer.account, transfer.id, TransferDecided, transfer.correlation, now);
      AloneStep(store.View(), clock, 1, CreateDecide(req, hash), outside);
      AloneStep(store.View(), clock, 2, CreateInsert(req, hash, transfer, outbox, audit), outside);
      var inserted := store.Insert(transfer, outbox, [audit]);
      if inserted.Err? {
        AloneStep(store.View(), clock, 3, CreateRefind(req, hash), outside);
        var existing := store.Find(req.tenant, req.idempotencyKey);
        if existing.Some? {
          if existing.value.requestHash != "" && existing.value.requestHash != hash {
            return Refused(Conflict);
          }
          return Created(existing.value, true);
        }
        return Refused(Conflict);
      }
      answer := Created(transfer, false);
    }

    method CollectCreationEvents(transfer: Transfer, now: Instant) returns (outbox: seq<Event>)
      ensures outbox == CreationEvents(transfer, now)
    {
      outbox := [];
      outbox := outbox + [Note(TransferRequested, transfer, transfer.correlation, now)];
      outbox := outbox + [Note(DictKeyResolved, transfer, transfer.correlation, now)];
      outbox := outbox + [Note(FraudScored, transfer, transfer.correlation, now)];
      if transfer.status.Accepted? {
        outbox := outbox + [Note(TransferAccepted, transfer, transfer.correlation, now)];
        outbox := outbox + [Note(SpiSubmissionRequested, transfer, transfer.correlation, now)];
      } else if transfer.status.Review? {
        outbox := outbox + [Note(ReviewRequested, transfer, transfer.correlation, now)];
      } else if transfer.status.Blocked? {
        outbox := outbox + [Note(TransferBlocked, transfer, transfer.correlation, now)];
      }
    }

    /** `clock(0)` prepares the claim; the phases read `clock(1)` and on. */
    method SubmitToSpi(tenant: string, id: string, correlation: string, token: string, outside: Input, clock: Clock)
      returns (answer: Answer)
      requires store.Valid() && outside.SpiAnswer?
      modifies store
      ensures store.Valid()
      ensures Finished(store.View(), answer)
           == Alone(old(store.View()), clock, 1, BeginSubmit(tenant, id, correlation, token, clock(0)), outside)
    {
      hide ClaimSpi, RecordSpi, ReleaseSpi;
      var tenantId, transferId, correlationId := Trim(tenant), Trim(id), Trim(correlation);
      if tenantId == "" || transferId == "" {
        return Refused(Validation);
      }
      AloneStep(store.View(), clock, 1, SubmitClaim(tenantId, transferId, correlationId, token, clock(0) + SPI_CLAIM_TTL), outside);
      var claimed := store.ClaimSubmission(tenantId, transferId, token, clock(0) + SPI_CLAIM_TTL, clock(1));
      if claimed.Err? {
        return Refused(claimed.error);
      }
      if claimed.value.replay {
        return Submitted(claimed.value.transfer, true);
      }
      var current := claimed.value.transfer;
      if correlationId == "" {
        correlationId := current.correlation;
      }
      answer := FinishSubmission(tenantId, transferId, correlationId, token, clock(0) + SPI_CLAIM_TTL, current, outside, clock);
    }

    /** The second half of `SubmitToSPI`, once the SPI client has answered. */
    method FinishSubmission(tenant: string, id: string, correlation: string, token: string, ghost until: Instant,
                            current: Transfer, outside: Input, clock: Clock) returns (answer: Answer)
      requires store.Valid() && outside.SpiAnswer?
      modifies store
      ensures store.Valid()
      ensures Finished(store.View(), answer)
           == Alone(old(store.View()), clock, 2, Goes(SubmitCall(tenant, id, correlation, token, until, current)), outside)
    {
      AloneStep(store.View(), clock, 2, SubmitCall(tenant, id, correlation, token, until, current), outside);
      if outside.answer.Err? {
        var failure := outside.answer.error;
        AloneStep(store.View(), clock, 3, SubmitRelease(tenant, id, token, failure, clock(2) + SPI_RETRY_DELAY), outside);
        hide RecordSpi, ReleaseSpi;
        var released := store.ReleaseSubmission(tenant, id, token, failure, clock(2) + SPI_RETRY_DELAY, clock(3));
        return Refused(Upstream(failure));
      }
      var message := outside.answer.value;
      var outbox: seq<Event> := [];
      outbox := outbox + [Note(SpiMessageCreated, current, correlation, clock(2))];
      outbox := outbox + [Note(TransferApproved, current, correlation, clock(2))];
      assert outbox == SubmissionEvents(current, correlation, clock(2));
      var audit := AuditRecord(current.tenant, current.account, current.id, SubmissionRecorded, correlation, message.submittedAt);
      AloneStep(store.View(), clock, 3, SubmitRecord(tenant, id, token, message, outbox, audit), outside);
      hide RecordSpi, ReleaseSpi;
      var recorded := store.RecordSubmission(tenant, id, token, message, outbox, audit);
      if recorded.Err? {
        return Refused(recorded.error);
      }
      answer := Submitted(recorded.value.transfer, recorded.value.replay);
    }

    method RecordReview(request: ReviewRequest, clock: Clock) returns (answer: Answer)
      requires store.Valid()
      modifies store
      ensures store.Valid()
      ensures Finished(store.View(), answer) == Alone(old(store.View()), clock, 1, BeginReview(request, clock(0)), Nothing)
    {
      hide Store.RecordReview, PrepareReview;
      var req := request.(tenant := Trim(request.tenant), transferId := Trim(request.transferId),
                          correlation := Trim(request.correlation), reason := Trim(request.reason));
      if req.reviewedAt == ZERO_TIME {
        req := req.(reviewedAt := clock(0));
      }
      if req.tenant == "" || req.transferId == "" {
        return Refused(Validation);
      }
      AloneStep(store.View(), clock, 1, ReviewRead(req), Nothing);
      var prepared := Review(req);
      if prepared.Ends? {
        return prepared.answer;
      }
      var p := prepared.phase;
      AloneStep(store.View(), clock, 2, p, Nothing);
      var updated := store.RecordReviewDecision(p.tenant, p.id, p.status, p.reason, p.events, p.audit);
      if updated.Err? {
        return Refused(updated.error);
      }
      answer := Reviewed(updated.value);
    }

    /** Reads the transfer and prepares what the decision will write. */
    method Review(req: ReviewRequest) returns (prepared: Move)
      ensures prepared == PrepareReview(store.View(), req)
      ensures prepared.Goes? ==> prepared.phase.ReviewCommit?
    {
      var found := store.Get(req.tenant, req.transferId);
      if found.Err? {
        return Ends(Refused(found.error));
      }
      var current := found.value;
      if !current.status.Review? {
        return Ends(Refused(Conflict));
      }
      var correlation := req.correlation;
      if correlation == "" {
        correlation := current.correlation;
      }
      var nextStatus, kind := Accepted, ReviewApproved;
      if req.decision.Block? {
        nextStatus, kind := Blocked, ReviewBlocked;
      } else if !req.decision.Approve? {
        return Ends(Refused(Validation));
      }
      var reason := req.reason;
      if reason == "" {
        reason := "manual review approved";
        if nextStatus.Blocked? {
          reason := "manual review blocked";
        }
      }
      var outbox: seq<Event> := [];
      outbox := outbox + [Note(kind, current, correlation, req.reviewedAt)];
      if nextStatus.Accepted? {
        outbox := outbox + [Note(SpiSubmissionRequested, current, correlation, req.reviewedAt)];
      } else {
        outbox := outbox + [Note(TransferBlocked, current, correlation, req.reviewedAt)];
      }
      assert outbox == ReviewEvents(current, nextStatus, correlation, req.reviewedAt);
      var audit := AuditRecord(current.tenant, current.account, current.id, ReviewRecorded, correlation, req.reviewedAt);
      prepared := Goes(ReviewCommit(req.tenant, req.transferId, nextStatus, reason, outbox, audit));
    }

    method RecordSettlement(given: SettlementCallback, newCorrelation: string, clock: Clock) returns (answer: Answer)
      requires store.Valid()
      modifies store
      ensures store.Valid()
      ensures Finished(store.View(), answer)
           == Alone(old(store.View()), clock, 1, BeginSettle(given, newCorrelation, clock(0)), Nothing)
    {
      hide UpdateSettlement, CallbackFingerprint, PrepareSettlement;
      var callback := given;
      if callback.receivedAt == ZERO_TIME {
        callback := callback.(receivedAt := clock(0));
      }
      if callback.correlation == "" {
        callback := callback.(correlation := newCorrelation);
      }
      if callback.tenant == "" || callback.transferId == "" || callback.spiMessageId == "" {
        return Refused(Validation);
      }
      if callback.callbackHash == "" {
        callback := callback.(callbackHash := CallbackFingerprint(callback));
      }
      AloneStep(store.View(), clock, 1, SettleRead(callback), Nothing);
      var prepared := Settlement(callback);
      if prepared.Ends? {
        return prepared.answer;
      }
      var p := prepared.phase;
      AloneStep(store.View(), clock, 2, p, Nothing);
      var updated := store.Settlement(callback.tenant, callback.transferId, callback, p.events, p.audit);
      if updated.Err? {
        return Refused(updated.error);
      }
      answer := Recorded(updated.value.transfer, updated.value.replay);
    }

    /** Reads the transfer and prepares what the settlement will write. */
    method Settlement(callback: SettlementCallback) returns (prepared: Move)
      ensures prepared == PrepareSettlement(store.View(), callback)
      ensures prepared.Goes? ==> prepared.phase.SettleCommit? && prepared.phase.callback == callback
    {
      var found := store.Get(callback.tenant, callback.transferId);
      if found.Err? {
        return Ends(Refused(found.error));
      }
      var current := found.value;
      if current.spiMessageId == "" || current.spiMessageId != callback.spiMessageId {
        return Ends(Refused(Conflict));
      }
      var kind := TransferSettled;
      match callback.status {
        case SettlementAccepted =>
        case SettlementRejected => kind := TransferRejected;
        case OtherSettlement(_) => return Ends(Refused(Validation));
      }
      var audit := AuditRecord(current.tenant, current.account, current.id, SettlementRecorded, callback.correlation, callback.receivedAt);
      prepared := Goes(SettleCommit(callback, [Note(kind, current, callback.correlation, callback.receivedAt)], audit));
    }

    /** Scans once, submits one by one, and counts what each came to.  `batch` is what was
        scanned.  A conflict is skipped, any other refusal ends the batch. */
    method SubmitPendingSpi(limit: int, tokens: nat -> string, client: Client, clock: Clock)
      returns (result: BatchResult, error: Option<Error>, ghost batch: seq<Transfer>, ghost states: seq<State>, ghost answers: seq<Answer>)
      requires store.Valid()
      modifies store
      ensures store.Valid()
      ensures OldestPending(old(store.View()), clock(0), EffectiveLimit(limit), batch)
      ensures OneByOne(states, answers, batch, tokens, client, clock)
      ensures states[0] == old(store.View()) && states[|answers|] == store.View()
      ensures forall i :: 0 <= i < |answers| - 1 ==> Fresh(answers[i]) || Repeated(answers[i]) || Skipped(answers[i])
      ensures result == BatchResult(|batch|, Count(answers, Fresh), Count(answers, Repeated), Count(answers, Skipped))
      ensures if error.Some? then answers != [] && answers[|answers| - 1] == Refused(error.value) && error.value != Conflict
              else |answers| == |batch|
      ensures error.None? ==> result.scanned == result.submitted + result.replayed + result.skipped
      ensures error.Some? ==> result.scanned > result.submitted + result.replayed + result.skipped
      ensures Smooth(old(store.View()), tokens, client, clock) ==>
                error.None? && result.submitted == result.scanned && Done(old(store.View()), store.View(), batch, |batch|, client)
    {
      hide Alone, OldestPending, Done, Smooth, Count;
      var pending := store.PendingSubmissions(limit, clock(0));
      batch := pending;
      ghost var before := store.View();
      states, answers := [before], [];
      result := BatchResult(|pending|, 0, 0, 0);
      NothingDone(before, pending, client);
      NothingCounted();
      for i := 0 to |pending|
        invariant store.Valid() && |answers| == i
        invariant OneByOne(states, answers, pending, tokens, client, clock) && states[0] == before && states[i] == store.View()
        invariant forall j :: 0 <= j < i ==> Fresh(answers[j]) || Repeated(answers[j]) || Skipped(answers[j])
        invariant result == BatchResult(|pending|, Count(answers, Fresh), Count(answers, Repeated), Count(answers, Skipped))
        invariant result.submitted + result.replayed + result.skipped == i
        invariant Smooth(before, tokens, client, clock) ==>
                    result.submitted == i && Done(before, store.View(), pending, i, client)
      {
        var t := pending[i];
        var outside := SpiAnswer(client(t.id));
        ghost var mid := store.View();
        var answer := SubmitToSpi(t.tenant, t.id, t.correlation, tokens(i), outside, Readings(clock, i));
        StartsAsSubmission(mid, t, tokens(i), Readings(clock, i), outside);
        if Smooth(before, tokens, client, clock) {
          SmoothStep(before, mid, tokens, client, clock, EffectiveLimit(limit), pending, i);
        }
        CountOneMore(answers, answer, Fresh);
        CountOneMore(answers, answer, Repeated);
        CountOneMore(answers, answer, Skipped);
        states, answers := states + [store.View()], answers + [answer];
        if answer.Refused? {
          if answer.error == Conflict {
            result := result.(skipped := result.skipped + 1);
            continue;
          }
          error := Some(answer.error);
          return;
        }
        if answer.replay {
          result := result.(replayed := result.replayed + 1);
          continue;
        }
        result := result.(submitted := result.submitted + 1);
      }
      error := None;
    }

    /** The worker: one batch after another, whatever came of the ones before.  `clock(r)` has
        the readings of the r-th batch; `clock(m)(0)` is the instant the backlog is looked at. */
    method RunBatches(limit: int, m: nat, tokens: nat -> nat -> string, client: Client, clock: nat -> Clock)
      returns (submitted: nat)
      requires store.Valid()
      modifies store
      ensures store.Valid()
      ensures Undisturbed(old(store.View()), m, tokens, client, clock) ==>
                var n := |PendingIds(old(store.View()), clock(0)(0))|;
                var left := |PendingIds(store.View(), clock(m)(0))|;
                && left == Left(n, m, EffectiveLimit(limit))
                && submitted == n - left
                && (left == 0 <==> (n + EffectiveLimit(limit) - 1) / EffectiveLimit(limit) <= m)
    {
      hide Smooth, Done, OldestPending, Round, PendingIds, Advanced;
      ghost var before := store.View();
      ghost var states, times := [before], [clock(0)(0)];
      submitted := 0;
      AdvancedSame(before);
      for r := 0 to m
        invariant store.Valid()
        invariant |states| == |times| == r + 1 && states[0] == before && states[r] == store.View()
        invariant forall i :: 0 <= i <= r ==> times[i] == clock(i)(0)
        invariant Undisturbed(before, m, tokens, client, clock) ==>
                    && Advanced(before, store.View())
                    && Rounds(states, times, EffectiveLimit(limit))
                    && submitted == |PendingIds(before, times[0])| - |PendingIds(states[r], times[r])|
      {
        ghost var mid := store.View();
        if Undisturbed(before, m, tokens, client, clock) {
          NextIsSmooth(before, mid, r, m, tokens, client, clock);
        }
        var result, error, batch, _, _ := SubmitPendingSpi(limit, tokens(r), client, clock(r));
        if Undisturbed(before, m, tokens, client, clock) {
          NextRound(before, mid, store.View(), r, m, tokens, client, clock, EffectiveLimit(limit), batch);
          RoundsGrow(states, times, store.View(), clock(r + 1)(0), EffectiveLimit(limit));
        }
        states, times := states + [store.View()], times + [clock(r + 1)(0)];
        submitted := submitted + result.submitted;
      }
      if Undisturbed(before, m, tokens, client, clock) {
        RoundsDrain(states, times, EffectiveLimit(limit));
      }
    }
  }

  /** Batches without mishap, and nothing becomes eligible by the mere passing of time. */
  ghost predicate Undisturbed(s: State, m: nat, tokens: nat -> nat -> string, client: Client, clock: nat -> Clock) {
    && (forall r: nat :: r < m ==> Smooth(s, tokens(r), client, clock(r)))
    && (forall r: nat :: r <= m ==> PendingIds(s, clock(r)(0)) == PendingIds(s, clock(0)(0)))
  }

  lemma AdvancedSame(s: State)
    ensures Advanced(s, s)
  {
  }

  lemma NextIsSmooth(before: State, mid: State, r: nat, m: nat, tokens: nat -> nat -> string, client: Client, clock: nat -> Clock)
    requires r < m && Undisturbed(before, m, tokens, client, clock) && Advanced(before, mid)
    ensures Smooth(mid, tokens(r), client, clock(r))
  {
    hide Advanced, Smooth, PendingIds;
    AdvancedStaysSmooth(before, mid, tokens(r), client, clock(r));
  }

  /** A batch of the worker is a round, and takes as many as it scanned. */
  lemma NextRound(before: State, mid: State, after: State, r: nat, m: nat, tokens: nat -> nat -> string,
                  client: Client, clock: nat -> Clock, limit: nat, batch: seq<Transfer>)
    requires r < m && Undisturbed(before, m, tokens, client, clock) && Advanced(before, mid)
    requires OldestPending(mid, clock(r)(0), limit, batch) && Done(mid, after, batch, |batch|, client)
    ensures Advanced(before, after)
    ensures Round(mid, clock(r)(0), after, clock(r + 1)(0), limit)
    ensures |batch| == |PendingIds(mid, clock(r)(0))| - |PendingIds(after, clock(r + 1)(0))|
  {
    assert |batch| == if |PendingIds(mid, clock(r)(0))| < limit then |PendingIds(mid, clock(r)(0))| else limit;
    hide Advanced, Smooth, PendingIds, OldestPending, Done, Round;
    DoneAdvances(mid, after, batch, client);
    AdvancedTransitive(before, mid, after);
    var now, next := clock(r)(0), clock(r + 1)(0);
    AdvancedStaysSteady(before, mid, now, next);
    BatchIsRound(mid, now, after, next, limit, batch, client);
    RoundTakes(mid, now, after, next, limit);
  }

  lemma RoundsGrow(states: seq<State>, times: seq<Instant>, s: State, t: Instant, limit: nat)
    requires |states| == |times| > 0 && Rounds(states, times, limit)
    requires Round(states[|states| - 1], times[|times| - 1], s, t, limit)
    ensures Rounds(states + [s], times + [t], limit)
  {
    hide Round;
  }

  lemma NothingDone(s: State, batch: seq<Transfer>, client: Client)
    ensures Done(s, s, batch, 0, client)
  {
  }

  lemma StartsAsSubmission(s: State, t: Transfer, token: string, clock: Clock, outside: Input)
    requires outside.SpiAnswer?
    ensures var a := Alone(s, clock, 1, BeginSubmit(t.tenant, t.id, t.correlation, token, clock(0)), outside).answer;
            a.Submitted? || a.Refused?
  {
    SubmissionAnswers(s, clock, BeginSubmit(t.tenant, t.id, t.correlation, token, clock(0)), outside, 1);
  }

  /** In a smooth batch the next submission goes through. */
  lemma SmoothStep(before: State, mid: State, tokens: nat -> string, client: Client, clock: Clock,
                   limit: nat, batch: seq<Transfer>, i: nat)
    requires Filed(mid) && Smooth(before, tokens, client, clock) && OldestPending(before, clock(0), limit, batch)
    requires i < |batch| && Done(before, mid, batch, i, client)
    ensures var t := batch[i]; var c := Readings(clock, i);
            var f := Alone(mid, c, 1, BeginSubmit(t.tenant, t.id, t.correlation, tokens(i), c(0)), SpiAnswer(client(t.id)));
            && f.answer.Submitted? && !f.answer.replay
            && Done(before, f.state, batch, i + 1, client)
  {
    hide Alone, Done;
    var t, c := batch[i], Readings(clock, i);
    NextIsUntouched(before, mid, clock(0), limit, batch, i, client);
    assert t.id in PendingIds(before, clock(0));
    assert Pending(t, clock(0)) && clock(0) <= c(1) < c(0) + SPI_CLAIM_TTL;
    SubmissionGoesThrough(mid, c, t, tokens(i), SpiAnswer(client(t.id)));
    var f := Alone(mid, c, 1, BeginSubmit(t.tenant, t.id, t.correlation, tokens(i), c(0)), SpiAnswer(client(t.id)));
    DoneOneMore(before, mid, f.state, batch, i, client, f.answer.transfer);
  }
}
