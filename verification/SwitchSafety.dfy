/** What holds of every run of the switch: any number of create, submit, review
    and settlement calls, interleaved at their store calls, abandoned anywhere,
    with relays delivering in between. */
module SwitchSafety {
  import opened Wrappers
  import opened Text
  import opened Instants
  import opened Rail
  import opened Events
  import opened Outbox
  import opened Store
  import opened Lifecycle
  import opened Calls
  import opened Consistency
  import opened StoreSteps
  import opened World
  import opened Invariant
  import opened PhaseSteps
  import opened WorldSteps
  import Fraud
  import Int64

  /** The world a run from the empty switch leads to. */
  ghost function Reach(issuer: Issuer, steps: seq<Step>): World
    requires Runs(issuer, INITIAL, steps)
  {
    Run(issuer, INITIAL, steps)
  }

  lemma ReachKeeps(issuer: Issuer, steps: seq<Step>)
    requires Runs(issuer, INITIAL, steps)
    ensures Inv(issuer, Reach(issuer, steps))
  {
    hide Inv, Runs, Extends;
    InitialInv(issuer);
    RunKeeps(issuer, INITIAL, steps);
  }

  // -------------------------------------------------- events, status and audit

  /** In every run, the events of a transfer form a legal word, folding it gives
      the transfer's status, and the audit log holds exactly one record for each
      state change; nothing is recorded for a transfer that is not stored. */
  lemma EventsExplainStatus(issuer: Issuer, steps: seq<Step>, id: string)
    requires Runs(issuer, INITIAL, steps)
    ensures var s := Reach(issuer, steps).store;
            if id in s.transfers
            then Replay(FRESH, KindsOf(s.events, id)) == Trace(At(s.transfers[id].status), ActionsOf(s.audit, id))
            else KindsOf(s.events, id) == [] && ActionsOf(s.audit, id) == []
  {
    hide Runs, Reach;
    ReachKeeps(issuer, steps);
    var s := Reach(issuer, steps).store;
    assert Journalled(s.transfers, s.events, s.audit, id);
  }

  /** Whether a call just changed a transfer's state. */
  predicate Commits(m: Move) {
    m.Ends? &&
    match m.answer
    case Created(_, replay) => !replay
    case Submitted(_, replay) => !replay
    case Reviewed(_) => true
    case Recorded(_, replay) => !replay
    case Refused(_) => false
  }

  /** Same tables except for transfers, and those with the same status and ids. */
  ghost predicate Quiet(s: State, s': State) {
    && s'.events == s.events && s'.audit == s.audit
    && s'.idempotency == s.idempotency && s'.callbacks == s.callbacks
    && s'.transfers.Keys == s.transfers.Keys
    && (forall id :: id in s.transfers ==>
          s'.transfers[id].status == s.transfers[id].status && s'.transfers[id].spiMessageId == s.transfers[id].spiMessageId)
  }

  lemma ReplaceIsQuiet(s: State, t': Transfer)
    requires t'.id in s.transfers
    requires t'.status == s.transfers[t'.id].status && t'.spiMessageId == s.transfers[t'.id].spiMessageId
    ensures Quiet(s, s.(transfers := s.transfers[t'.id := t']))
  {
  }

  lemma ClaimIsQuiet(s: State, tenant: string, id: string, token: string, until: Instant, now: Instant)
    requires Filed(s)
    ensures Quiet(s, ClaimSpi(s, tenant, id, token, until, now).state)
  {
    hide Quiet;
    var r := ClaimSpi(s, tenant, id, token, until, now);
    QuietSame(s);
    if r.result.Ok? && !r.result.value.replay {
      ReplaceIsQuiet(s, r.result.value.transfer);
    }
  }

  lemma QuietSame(s: State)
    ensures Quiet(s, s)
  {
  }

  lemma ReleaseIsQuiet(s: State, tenant: string, id: string, token: string, lastError: string, retryAt: Instant, now: Instant)
    requires Filed(s)
    ensures Quiet(s, ReleaseSpi(s, tenant, id, token, lastError, retryAt, now).state)
  {
    hide Quiet;
    QuietSame(s);
    if Lookup(s, tenant, id).Some? {
      var released := ReleaseSubmission(s.transfers[id], token, lastError, retryAt, now);
      if released.Ok? {
        ReplaceIsQuiet(s, released.value);
      }
    }
  }

  predicate Reading(p: Phase) {
    p.CreateFind? || p.CreateDecide? || p.CreateRefind? || p.SubmitCall? || p.ReviewRead? || p.SettleRead?
  }

  lemma ReadingPhase(s: State, now: Instant, p: Phase, i: Input)
    requires Reading(p) && Fits(p, i)
    ensures Advance(s, now, p, i).state == s && !Commits(Advance(s, now, p, i).move)
  {
    hide Fraud.Decide;
  }

  lemma LeasePhase(s: State, now: Instant, p: Phase)
    requires Filed(s) && (p.SubmitClaim? || p.SubmitRelease?)
    ensures Quiet(s, Advance(s, now, p, Nothing).state) && !Commits(Advance(s, now, p, Nothing).move)
  {
    if p.SubmitClaim? {
      ClaimIsQuiet(s, p.tenant, p.id, p.token, p.until, now);
    } else {
      ReleaseIsQuiet(s, p.tenant, p.id, p.token, p.lastError, p.retryAt, now);
    }
    hide Quiet;
  }

  /** A commit writes one transfer, the one it answers with, and adds the events and the
      one audit record it had prepared; only a create touches the index, only a settlement
      the callbacks. */
  ghost predicate Written(s: State, p: Phase, e: Effect)
    requires Commits(e.move) && (p.CreateInsert? || p.SubmitRecord? || p.ReviewCommit? || p.SettleCommit?)
  {
    var t := e.move.answer.transfer;
    && e.state.transfers == s.transfers[t.id := t]
    && e.state.events == Enqueue(s.events, s.nextSeq, p.events)
    && e.state.audit == s.audit + [p.audit]
    && (!p.CreateInsert? ==> e.state.idempotency == s.idempotency)
    && (!p.SettleCommit? ==> e.state.callbacks == s.callbacks)
  }

  lemma WritingPhase(s: State, now: Instant, p: Phase)
    requires p.CreateInsert? || p.SubmitRecord? || p.ReviewCommit? || p.SettleCommit?
    ensures var e := Advance(s, now, p, Nothing);
            if Commits(e.move) then Written(s, p, e) else e.state == s
  {
    hide Enqueue, EffectiveHash, RecordSubmission, DecideReview, Settle;
  }

  /** Claims, releases, replays, reads and refused calls leave events, audit,
      index, callbacks and every status alone; a commit writes one transfer, its
      events and one audit record. */
  lemma OnlyCommitsWrite(issuer: Issuer, s: State, now: Instant, p: Phase, i: Input)
    requires Consistent(issuer, s) && Fits(p, i)
    ensures var e := Advance(s, now, p, i);
            if Commits(e.move)
            then (p.CreateInsert? || p.SubmitRecord? || p.ReviewCommit? || p.SettleCommit?) && Written(s, p, e)
            else Quiet(s, e.state)
  {
    FiledWhenConsistent(issuer, s);
    hide Consistent, Advance, Commits, Quiet, Written;
    QuietSame(s);
    if Reading(p) {
      ReadingPhase(s, now, p, i);
    } else if p.SubmitClaim? || p.SubmitRelease? {
      LeasePhase(s, now, p);
    } else {
      WritingPhase(s, now, p);
    }
  }

  /** In every run what a commit adds is about the transfer it writes: its audit record
      and every one of its events. */
  lemma CommitsTellOfTheirTransfer(issuer: Issuer, steps: seq<Step>, c: nat, i: Input)
    requires Runs(issuer, INITIAL, steps) && c in Reach(issuer, steps).calls && Fits(Reach(issuer, steps).calls[c], i)
    requires var w := Reach(issuer, steps); Commits(Advance(w.store, w.clock, w.calls[c], i).move)
    ensures var w := Reach(issuer, steps); var p := w.calls[c];
            var e := Advance(w.store, w.clock, p, i);
            && (p.CreateInsert? || p.SubmitRecord? || p.ReviewCommit? || p.SettleCommit?)
            && Written(w.store, p, e)
            && p.audit.transferId == e.move.answer.transfer.id
            && p.events != [] && AllFor(p.events, e.move.answer.transfer.id)
  {
    hide Runs, Reach;
    ReachKeeps(issuer, steps);
    var w := Reach(issuer, steps);
    var p := w.calls[c];
    assert PhaseOk(issuer, w.store, w.hist, p);
    FiledWhenConsistent(issuer, w.store);
    hide Inv, Consistent, PhaseOk, Advance, Commits, Written;
    OnlyCommitsWrite(issuer, w.store, w.clock, p, i);
    CommitAnswersItsTransfer(w.store, w.clock, p);
    PreparedFor(issuer, w.store, w.hist, p);
  }

  /** The transfer a writing phase is about. */
  function Subject(p: Phase): string
    requires p.CreateInsert? || p.SubmitRecord? || p.ReviewCommit? || p.SettleCommit?
  {
    match p
    case CreateInsert(_, _, t, _, _) => t.id
    case SubmitRecord(_, id, _, _, _, _) => id
    case ReviewCommit(_, id, _, _, _, _) => id
    case SettleCommit(callback, _, _) => callback.transferId
  }

  lemma CommitAnswersItsTransfer(s: State, now: Instant, p: Phase)
    requires Filed(s) && (p.CreateInsert? || p.SubmitRecord? || p.ReviewCommit? || p.SettleCommit?)
    requires Commits(Advance(s, now, p, Nothing).move)
    ensures Advance(s, now, p, Nothing).move.answer.transfer.id == Subject(p)
  {
    hide Enqueue, EffectiveHash;
  }

  lemma PreparedFor(issuer: Issuer, s: State, h: History, p: Phase)
    requires PhaseOk(issuer, s, h, p) && (p.CreateInsert? || p.SubmitRecord? || p.ReviewCommit? || p.SettleCommit?)
    ensures p.audit.transferId == Subject(p) && p.events != [] && AllFor(p.events, Subject(p))
  {
  }

  // ------------------------------------------------------------ SPI exclusion

  /** A later claim on a transfer is made at or after the earlier claim's expiry,
      or the retry time its release set. */
  lemma ClaimsWait(issuer: Issuer, steps: seq<Step>, i: nat, j: nat)
    requires Runs(issuer, INITIAL, steps)
    requires var claims := Reach(issuer, steps).hist.claims; i < j < |claims| && claims[i].id == claims[j].id
    ensures var claims := Reach(issuer, steps).hist.claims; FreeAt(claims[i]) <= claims[j].at
  {
    hide Runs, Reach;
    ReachKeeps(issuer, steps);
    var claims := Reach(issuer, steps).hist.claims;
    assert Separated(claims[i], claims[j]);
  }

  /** If a Submit returned before its claim ran out, every later Submit for that
      transfer starts after that return: the two do not overlap. */
  lemma NoOverlappingSubmits(issuer: Issuer, steps: seq<Step>, i: nat, j: nat)
    requires Runs(issuer, INITIAL, steps)
    requires var claims := Reach(issuer, steps).hist.claims; i < j < |claims| && claims[i].id == claims[j].id
    requires var e := Reach(issuer, steps).hist.claims[i]; e.returned.Some? && e.returned.value < e.until
    ensures var claims := Reach(issuer, steps).hist.claims; claims[i].returned.value < claims[j].at
  {
    ClaimsWait(issuer, steps, i, j);
    hide Runs, Reach;
    ReachKeeps(issuer, steps);
    assert EntryOk(Reach(issuer, steps).clock, Reach(issuer, steps).hist.claims[i]);
  }

  /** Of two Submit calls in flight for one transfer, the one with the earlier claim
      has outlived it: at most one of them holds a claim that has not expired. */
  lemma OneLiveSubmit(issuer: Issuer, steps: seq<Step>, c: nat, d: nat)
    requires Runs(issuer, INITIAL, steps)
    requires var calls := Reach(issuer, steps).calls;
             && c in calls && d in calls && c != d
             && calls[c].SubmitCall? && calls[d].SubmitCall? && calls[c].id == calls[d].id
    ensures var w := Reach(issuer, steps); var h := w.hist;
            && HasClaim(h, w.calls[c].token, w.calls[c].id) && HasClaim(h, w.calls[d].token, w.calls[d].id)
            && var i, j := h.byToken[w.calls[c].token], h.byToken[w.calls[d].token];
               i != j && h.claims[if i < j then i else j].until <= w.clock
  {
    hide Runs, Reach, Consistent, CreatesOk;
    ReachKeeps(issuer, steps);
    var w := Reach(issuer, steps);
    assert PhaseOk(issuer, w.store, w.hist, w.calls[c]) && PhaseOk(issuer, w.store, w.hist, w.calls[d]);
    assert Nonce(w.calls[c]) != Nonce(w.calls[d]);
    hide Inv, PhaseOk, CallsOk, NoncesOk;
    EarlierHasExpired(w.clock, w.hist, w.calls[c].token, w.calls[d].token, w.calls[c].id);
  }

  lemma EarlierHasExpired(now: Instant, h: History, a: string, b: string, id: string)
    requires LogOk(now, h) && a != b && HasClaim(h, a, id) && HasClaim(h, b, id)
    requires h.claims[h.byToken[a]].retryAt.None? && h.claims[h.byToken[b]].retryAt.None?
    ensures var i, j := h.byToken[a], h.byToken[b];
            i != j && h.claims[if i < j then i else j].until <= now
  {
    var i, j := h.byToken[a], h.byToken[b];
    var first, second := if i < j then i else j, if i < j then j else i;
    assert h.claims[i].token == a && h.claims[j].token == b;
    assert Separated(h.claims[first], h.claims[second]);
    assert EntryOk(now, h.claims[second]);
  }

  /** The configured numbers suffice: a claim taken within 20 seconds of its
      preparation, whose Submit keeps to the 10-second timeout, excludes others. */
  lemma TimeoutFitsLease(issuer: Issuer, steps: seq<Step>, i: nat, j: nat)
    requires Runs(issuer, INITIAL, steps)
    requires var claims := Reach(issuer, steps).hist.claims; i < j < |claims| && claims[i].id == claims[j].id
    requires var e := Reach(issuer, steps).hist.claims[i];
             && e.at < (e.until - SPI_CLAIM_TTL) + 20 * SECOND
             && e.returned.Some? && e.returned.value <= e.at + SPI_SUBMIT_TIMEOUT
    ensures var claims := Reach(issuer, steps).hist.claims; claims[i].returned.value < claims[j].at
  {
    hide Runs, Reach;
    NoOverlappingSubmits(issuer, steps, i, j);
  }

  // ---------------------------------------------------------- SPI identifiers

  /** Identifiers go with the status, and a receiver whose risk signal is 80 or
      more is blocked, and so without any, exactly when its score does not
      overflow; otherwise it was accepted outright. */
  lemma IdentifiersMatchStatus(issuer: Issuer, steps: seq<Step>, id: string)
    requires Runs(issuer, INITIAL, steps) && id in Reach(issuer, steps).store.transfers
    ensures var t := Reach(issuer, steps).store.transfers[id];
            && (t.spiMessageId != "" <==> HasSpiIds(t.status))
            && (t.endToEndId != "" <==> HasSpiIds(t.status))
            && (80 <= t.receiverRisk <= Int64.INT64_MAX ==>
                  && (t.status.Blocked? <==> ScoreFits(t))
                  && (ScoreFits(t) ==> t.spiMessageId == "" && t.endToEndId == "")
                  && (!ScoreFits(t) ==> CanBecome(Accepted, t.status)))
  {
    hide Runs, Reach;
    ReachKeeps(issuer, steps);
    SoundAt(issuer, Reach(issuer, steps).store, id);
  }

  /** Message ids are never shared, so they lead back to one transfer. */
  lemma MessageIdNamesOneTransfer(issuer: Issuer, steps: seq<Step>, a: string, b: string)
    requires Runs(issuer, INITIAL, steps)
    requires var ts := Reach(issuer, steps).store.transfers;
             a in ts && b in ts && ts[a].spiMessageId == ts[b].spiMessageId != ""
    ensures a == b
  {
    hide Runs, Reach;
    ReachKeeps(issuer, steps);
    SoundAt(issuer, Reach(issuer, steps).store, a);
    SoundAt(issuer, Reach(issuer, steps).store, b);
  }

  /** Whatever happens later, a stored transfer only evolves: identifiers once
      written stay, a terminal transfer is frozen. */
  lemma TransfersOnlyEvolve(issuer: Issuer, steps: seq<Step>, more: seq<Step>, id: string)
    requires Runs(issuer, INITIAL, steps) && Runs(issuer, Reach(issuer, steps), more)
    requires id in Reach(issuer, steps).store.transfers
    ensures var t := Reach(issuer, steps).store.transfers[id];
            var later := Run(issuer, Reach(issuer, steps), more).store.transfers;
            && id in later && Evolves(t, later[id])
            && (t.spiMessageId != "" ==> later[id].spiMessageId == t.spiMessageId && later[id].endToEndId == t.endToEndId)
            && (Terminal(t.status) ==> later[id] == t)
  {
    hide Runs, Reach, Inv;
    ReachKeeps(issuer, steps);
    RunKeeps(issuer, Reach(issuer, steps), more);
  }

  /** Only the holder of the latest claim writes SPI identifiers, and only where
      there were none. */
  lemma OnlyTheHolderWrites(issuer: Issuer, steps: seq<Step>, a: Step, id: string)
    requires Runs(issuer, INITIAL, steps) && Enabled(issuer, Reach(issuer, steps), a)
    requires var w := Reach(issuer, steps);
             id in w.store.transfers && id in Apply(issuer, w, a).store.transfers
             && Apply(issuer, w, a).store.transfers[id].spiMessageId != w.store.transfers[id].spiMessageId
    ensures var w := Reach(issuer, steps);
            && w.store.transfers[id].spiMessageId == ""
            && a.Proceed? && w.calls[a.call].SubmitRecord? && w.calls[a.call].id == id
            && id in w.hist.latest && w.hist.latest[id] < |w.hist.claims|
            && w.calls[a.call].token == w.hist.claims[w.hist.latest[id]].token
  {
    hide Runs, Reach;
    ReachKeeps(issuer, steps);
    var w := Reach(issuer, steps);
    WritesComeFromRecords(issuer, w, a, id);
    HolderIsLatest(w.clock, w.store.transfers, w.hist, id, w.calls[a.call].token);
  }

  lemma ReviewKeepsIds(s: State, tenant: string, id: string, status: Status, reason: string,
                       events: seq<Event>, audit: AuditRecord, x: string)
    requires Filed(s) && x in s.transfers
    ensures var ts := Store.RecordReview(s, tenant, id, status, reason, events, audit).state.transfers;
            x in ts && ts[x].spiMessageId == s.transfers[x].spiMessageId
  {
  }

  lemma SettlementKeepsIds(s: State, c: SettlementCallback, events: seq<Event>, audit: AuditRecord, x: string)
    requires Filed(s) && x in s.transfers
    ensures var ts := UpdateSettlement(s, c.tenant, c.transferId, c, events, audit).state.transfers;
            x in ts && ts[x].spiMessageId == s.transfers[x].spiMessageId
  {
  }

  lemma RecordWritesIds(s: State, tenant: string, id: string, token: string, message: SpiMessage,
                        events: seq<Event>, audit: AuditRecord, x: string)
    requires Filed(s) && x in s.transfers
    ensures var ts := RecordSpi(s, tenant, id, token, message, events, audit).state.transfers;
            && x in ts
            && (ts[x].spiMessageId == s.transfers[x].spiMessageId
                || (x == id && s.transfers[x].claimToken == token != "" && s.transfers[x].status.Accepted?))
  {
  }

  lemma PhaseWritesIds(issuer: Issuer, s: State, now: Instant, p: Phase, i: Input, id: string)
    requires Consistent(issuer, s) && Fits(p, i) && id in s.transfers
    requires p.CreateInsert? ==> p.transfer.id != id
    requires id in Advance(s, now, p, i).state.transfers
    requires Advance(s, now, p, i).state.transfers[id].spiMessageId != s.transfers[id].spiMessageId
    ensures p.SubmitRecord? && p.id == id && s.transfers[id].claimToken == p.token != ""
    ensures s.transfers[id].spiMessageId == ""
  {
    SoundAt(issuer, s, id);
    FiledWhenConsistent(issuer, s);
    hide Consistent, Advance;
    if Reading(p) {
      ReadingPhase(s, now, p, i);
    } else if p.SubmitClaim? || p.SubmitRelease? {
      LeasePhase(s, now, p);
    } else {
      WritingPhaseIds(s, now, p, id);
    }
  }

  lemma WritingPhaseIds(s: State, now: Instant, p: Phase, id: string)
    requires Filed(s) && id in s.transfers
    requires p.CreateInsert? || p.SubmitRecord? || p.ReviewCommit? || p.SettleCommit?
    requires p.CreateInsert? ==> p.transfer.id != id
    ensures var ts := Advance(s, now, p, Nothing).state.transfers;
            && id in ts
            && (ts[id].spiMessageId == s.transfers[id].spiMessageId
                || (p.SubmitRecord? && p.id == id && s.transfers[id].claimToken == p.token != "" && s.transfers[id].status.Accepted?))
  {
    match p
    case SubmitRecord(tenant, x, token, message, events, audit) => RecordWritesIds(s, tenant, x, token, message, events, audit, id);
    case ReviewCommit(tenant, x, status, reason, events, audit) => ReviewKeepsIds(s, tenant, x, status, reason, events, audit, id);
    case SettleCommit(c, events, audit) => SettlementKeepsIds(s, c, events, audit, id);
    case _ =>
  }

  lemma WritesComeFromRecords(issuer: Issuer, w: World, a: Step, id: string)
    requires Inv(issuer, w) && Enabled(issuer, w, a) && id in w.store.transfers
    requires id in Apply(issuer, w, a).store.transfers
    requires Apply(issuer, w, a).store.transfers[id].spiMessageId != w.store.transfers[id].spiMessageId
    ensures a.Proceed? && w.calls[a.call].SubmitRecord? && w.calls[a.call].id == id
    ensures w.store.transfers[id].id == id && w.store.transfers[id].claimToken == w.calls[a.call].token != ""
    ensures w.store.transfers[id].spiMessageId == ""
  {
    hide Consistent, ClaimsOk, CreatesOk, NoncesOk, Advance, BeginCreate, BeginSubmit, BeginReview, BeginSettle;
    assert a.Proceed?;
    var p := w.calls[a.call];
    assert PhaseOk(issuer, w.store, w.hist, p);
    PhaseWritesIds(issuer, w.store, w.clock, p, a.input, id);
    SoundAt(issuer, w.store, id);
  }

  /** A worker whose claim is no longer the latest changes nothing: its record step gets a
      conflict or a replay, its release is refused and its caller told of the failed Submit. */
  lemma StaleWorkerIsHarmless(issuer: Issuer, steps: seq<Step>, c: nat)
    requires Runs(issuer, INITIAL, steps)
    requires var w := Reach(issuer, steps);
             && c in w.calls && (w.calls[c].SubmitRecord? || w.calls[c].SubmitRelease?)
             && (w.calls[c].id in w.hist.latest && w.hist.latest[w.calls[c].id] < |w.hist.claims| ==>
                   w.hist.claims[w.hist.latest[w.calls[c].id]].token != w.calls[c].token)
    ensures var w := Reach(issuer, steps); var p := w.calls[c];
            var e := Advance(w.store, w.clock, p, Nothing);
            && e.state == w.store && e.move.Ends?
            && (p.SubmitRecord? ==>
                  e.move.answer == Refused(Conflict) || (e.move.answer.Submitted? && e.move.answer.replay))
            && (p.SubmitRelease? ==> e.move.answer == Refused(Upstream(p.lastError)))
  {
    hide Runs, Reach, Advance, Consistent;
    ReachKeeps(issuer, steps);
    var w := Reach(issuer, steps);
    var p := w.calls[c];
    assert PhaseOk(issuer, w.store, w.hist, p);
    SoundAt(issuer, w.store, p.id);
    assert HolderOk(w.store.transfers[p.id], w.hist);
    if p.SubmitRecord? {
      StaleRecord(w.store, w.clock, p);
    } else {
      StaleRelease(w.store, w.clock, p);
    }
  }

  lemma StaleRecord(s: State, now: Instant, p: Phase)
    requires p.SubmitRecord? && Known(s, p.tenant, p.id) && s.transfers[p.id].claimToken != p.token
    ensures var e := Advance(s, now, p, Nothing);
            && e.state == s && e.move.Ends?
            && (e.move.answer == Refused(Conflict) || (e.move.answer.Submitted? && e.move.answer.replay))
  {
    hide Enqueue;
  }

  lemma StaleRelease(s: State, now: Instant, p: Phase)
    requires p.SubmitRelease? && Known(s, p.tenant, p.id) && s.transfers[p.id].claimToken != p.token
    ensures Advance(s, now, p, Nothing) == Effect(s, Ends(Refused(Upstream(p.lastError))))
  {
  }

  // -------------------------------------------------------------- idempotency

  /** All successful create calls for one tenant and key return the same transfer
      and share one fingerprint. */
  lemma OneKeyOneTransfer(issuer: Issuer, steps: seq<Step>, i: nat, j: nat)
    requires Runs(issuer, INITIAL, steps)
    requires var log := Reach(issuer, steps).hist.creates;
             i < |log| && j < |log| && log[i].tenant == log[j].tenant && log[i].key == log[j].key
    ensures var log := Reach(issuer, steps).hist.creates; log[i].id == log[j].id && log[i].hash == log[j].hash
  {
    hide Runs, Reach;
    ReachKeeps(issuer, steps);
    var w := Reach(issuer, steps);
    var log, ts := w.hist.creates, w.store.transfers;
    assert Matches(ts, log[i]) && Matches(ts, log[j]);
    IndexedAt(issuer, w.store, log[i].id);
    IndexedAt(issuer, w.store, log[j].id);
  }

  lemma IndexedAt(issuer: Issuer, s: State, id: string)
    requires Consistent(issuer, s) && id in s.transfers
    ensures IdemKey(s.transfers[id]) in s.idempotency && s.idempotency[IdemKey(s.transfers[id])] == id
  {
  }

  /** Each stored transfer was made by exactly one create call that is not a replay. */
  lemma OneBirthEach(issuer: Issuer, steps: seq<Step>, id: string)
    requires Runs(issuer, INITIAL, steps) && id in Reach(issuer, steps).store.transfers
    ensures var log := Reach(issuer, steps).hist.creates;
            exists i :: 0 <= i < |log| && log[i].id == id && !log[i].replay
              && forall j :: 0 <= j < |log| && log[j].id == id && !log[j].replay ==> j == i
  {
    hide Runs, Reach;
    ReachKeeps(issuer, steps);
    var h := Reach(issuer, steps).hist;
    var i := h.born[id];
    assert h.creates[i].id == id && !h.creates[i].replay;
    forall j | 0 <= j < |h.creates| && h.creates[j].id == id && !h.creates[j].replay
      ensures j == i
    {
      assert h.born[h.creates[j].id] == j;
    }
  }

  /** The index is a bijection with the stored transfers, and no two transfers
      share a tenant and key. */
  lemma IndexIsBijection(issuer: Issuer, steps: seq<Step>, a: string, b: string)
    requires Runs(issuer, INITIAL, steps)
    ensures var s := Reach(issuer, steps).store; Indexed(s.transfers, s.idempotency)
    ensures var ts := Reach(issuer, steps).store.transfers;
            a in ts && b in ts && ts[a].tenant == ts[b].tenant && ts[a].idempotencyKey == ts[b].idempotencyKey ==> a == b
  {
    hide Runs, Reach;
    ReachKeeps(issuer, steps);
    var s := Reach(issuer, steps).store;
    if a in s.transfers && b in s.transfers {
      IndexedAt(issuer, s, a);
      IndexedAt(issuer, s, b);
    }
  }

  /** A call whose key is already bound: it can no longer insert, and it ends with
      the bound transfer when the fingerprints agree and with a conflict when they
      differ, however its find and insert steps fell among the others. */
  lemma BoundKeyDecides(issuer: Issuer, steps: seq<Step>, c: nat)
    requires Runs(issuer, INITIAL, steps)
    requires var w := Reach(issuer, steps);
             && c in w.calls && (w.calls[c].CreateFind? || w.calls[c].CreateInsert? || w.calls[c].CreateRefind?)
             && StoreKey(w.calls[c].req.tenant, w.calls[c].req.idempotencyKey) in w.store.idempotency
    ensures var w := Reach(issuer, steps); var p := w.calls[c];
            var e := Advance(w.store, w.clock, p, Nothing);
            var bound := FindByIdempotency(w.store, p.req.tenant, p.req.idempotencyKey);
            && bound.Some? && bound.value.tenant == p.req.tenant && bound.value.idempotencyKey == p.req.idempotencyKey
            && e.state == w.store
            && (p.CreateInsert? ==> e.move == Goes(CreateRefind(p.req, p.hash)))
            && (!p.CreateInsert? ==>
                  e.move == Ends(if bound.value.requestHash == p.hash then Created(bound.value, true) else Refused(Conflict)))
  {
    hide Runs, Reach;
    ReachKeeps(issuer, steps);
    var w := Reach(issuer, steps);
    var p := w.calls[c];
    assert PhaseOk(issuer, w.store, w.hist, p);
    var k := StoreKey(p.req.tenant, p.req.idempotencyKey);
    BoundAt(issuer, w.store, k);
    FoundIsTheOne(issuer, w.store, p.req.tenant, p.req.idempotencyKey);
    hide Inv, Enqueue;
    BoundPhase(w.store, w.clock, p);
  }

  lemma BoundPhase(s: State, now: Instant, p: Phase)
    requires p.CreateFind? || p.CreateInsert? || p.CreateRefind?
    requires FindByIdempotency(s, p.req.tenant, p.req.idempotencyKey).Some?
    requires FindByIdempotency(s, p.req.tenant, p.req.idempotencyKey).value.requestHash != ""
    requires p.CreateInsert? ==>
      p.transfer.tenant == p.req.tenant && p.transfer.idempotencyKey == p.req.idempotencyKey && p.transfer.id !in s.transfers
    ensures var e := Advance(s, now, p, Nothing);
            var bound := FindByIdempotency(s, p.req.tenant, p.req.idempotencyKey).value;
            && e.state == s
            && (p.CreateInsert? ==> e.move == Goes(CreateRefind(p.req, p.hash)))
            && (!p.CreateInsert? ==>
                  e.move == Ends(if bound.requestHash == p.hash then Created(bound, true) else Refused(Conflict)))
  {
  }

  lemma BoundAt(issuer: Issuer, s: State, k: string)
    requires Consistent(issuer, s) && k in s.idempotency
    ensures s.idempotency[k] in s.transfers && IdemKey(s.transfers[s.idempotency[k]]) == k
  {
  }

  /** A call that lost the insert race always finds the winner: the key it wanted
      is bound when it looks again. */
  lemma LoserFindsTheWinner(issuer: Issuer, steps: seq<Step>, c: nat)
    requires Runs(issuer, INITIAL, steps)
    requires c in Reach(issuer, steps).calls && Reach(issuer, steps).calls[c].CreateRefind?
    ensures var w := Reach(issuer, steps);
            StoreKey(w.calls[c].req.tenant, w.calls[c].req.idempotencyKey) in w.store.idempotency
  {
    hide Runs, Reach;
    ReachKeeps(issuer, steps);
    var w := Reach(issuer, steps);
    assert PhaseOk(issuer, w.store, w.hist, w.calls[c]);
  }

  // --------------------------------------------------------------- settlement

  /** A callback entry for a transfer's message id exists exactly when that
      transfer is settled or rejected. */
  lemma CallbackIffDecided(issuer: Issuer, steps: seq<Step>, id: string)
    requires Runs(issuer, INITIAL, steps) && id in Reach(issuer, steps).store.transfers
    requires Reach(issuer, steps).store.transfers[id].spiMessageId != ""
    ensures var s := Reach(issuer, steps).store;
            CallbackKey(s.transfers[id]) in s.callbacks <==> Decided(s.transfers[id])
  {
    hide Runs, Reach;
    ReachKeeps(issuer, steps);
    var s := Reach(issuer, steps).store;
    var t := s.transfers[id];
    SoundAt(issuer, s, id);
    if CallbackKey(t) in s.callbacks {
      assert DecidedUnder(s.transfers, CallbackKey(t));
      var other :| other in s.transfers && Decided(s.transfers[other]) && CallbackKey(s.transfers[other]) == CallbackKey(t);
      SoundAt(issuer, s, other);
      StoreKeyInjective(t.tenant, t.spiMessageId, s.transfers[other].tenant, s.transfers[other].spiMessageId);
    }
  }

  /** Once decided, for good: status, settlement code and the filed hash never
      change again, in any continuation. */
  lemma DecidedForGood(issuer: Issuer, steps: seq<Step>, more: seq<Step>, id: string)
    requires Runs(issuer, INITIAL, steps) && Runs(issuer, Reach(issuer, steps), more)
    requires var ts := Reach(issuer, steps).store.transfers; id in ts && Decided(ts[id])
    ensures var s := Reach(issuer, steps).store; var s' := Run(issuer, Reach(issuer, steps), more).store;
            var k := CallbackKey(s.transfers[id]);
            && id in s'.transfers && s'.transfers[id] == s.transfers[id]
            && k in s.callbacks && k in s'.callbacks && s'.callbacks[k] == s.callbacks[k]
  {
    TransfersOnlyEvolve(issuer, steps, more, id);
    hide Runs, Reach;
    ReachKeeps(issuer, steps);
    SoundAt(issuer, Reach(issuer, steps).store, id);
    CallbackIffDecided(issuer, steps, id);
    hide Inv;
    RunKeeps(issuer, Reach(issuer, steps), more);
  }

  /** A callback for a decided transfer replays under the filed hash, conflicts
      under any other, and changes nothing either way. */
  lemma SecondCallback(issuer: Issuer, steps: seq<Step>, c: SettlementCallback, events: seq<Event>, audit: AuditRecord)
    requires Runs(issuer, INITIAL, steps)
    requires var s := Reach(issuer, steps).store;
             && Known(s, c.tenant, c.transferId) && Decided(s.transfers[c.transferId])
             && c.spiMessageId == s.transfers[c.transferId].spiMessageId
    ensures var s := Reach(issuer, steps).store;
            var r := UpdateSettlement(s, c.tenant, c.transferId, c, events, audit);
            var t := s.transfers[c.transferId];
            && CallbackKey(t) in s.callbacks
            && r.state == s
            && r.result == if s.callbacks[CallbackKey(t)] == EffectiveHash(c) then Ok(Outcome(t, true)) else Err(Conflict)
  {
    hide Runs, Reach, EffectiveHash, Consistent, Enqueue, Settle;
    ReachKeeps(issuer, steps);
    SoundAt(issuer, Reach(issuer, steps).store, c.transferId);
    CallbackIffDecided(issuer, steps, c.transferId);
  }
}
