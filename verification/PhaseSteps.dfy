/** Every phase of every call keeps the store consistent, keeps both logs, and
    leaves the call ready for its next phase. */
module PhaseSteps {
  import opened Wrappers
  import opened Text
  import opened Instants
  import opened Rail
  import opened Events
  import opened Outbox
  import opened Store
  import opened Lifecycle
  import opened Calls
  import opened Consistency
  import opened StoreSteps
  import opened World
  import opened Invariant

  ghost predicate Before(issuer: Issuer, s: State, now: Instant, h: History, p: Phase) {
    && Consistent(issuer, s)
    && ClaimsOk(now, s.transfers, h)
    && CreatesOk(s.transfers, h)
    && PhaseOk(issuer, s, h, p)
  }

  ghost predicate After(issuer: Issuer, s: State, now: Instant, h: History, p: Phase, e: Effect) {
    var h' := Remember(h, s, now, p, e.move);
    && Consistent(issuer, e.state)
    && Contained(s, e.state, h, h', Nonce(p))
    && ClaimsOk(now, e.state.transfers, h')
    && CreatesOk(e.state.transfers, h')
    && (e.move.Goes? ==> PhaseOk(issuer, e.state, h', e.move.phase))
  }

  // ---------------------------------------------------------------- helpers

  lemma ContainedSame(s: State, h: History, nonce: Option<string>)
    ensures Contained(s, s, h, h, nonce)
  {
    ExtendsReflexive(s);
  }

  lemma ContainedCommit(s: State, s': State, h: History, nonce: Option<string>)
    requires Extends(s, s') && s'.transfers.Keys == s.transfers.Keys
    ensures Contained(s, s', h, h, nonce)
  {
    hide Extends;
  }

  /** The log changed only in what belongs to `token`. */
  lemma ContainedLog(s: State, s': State, h: History, h': History, token: string)
    requires Extends(s, s') && s'.transfers.Keys == s.transfers.Keys
    requires forall other :: other != token ==> SameEntry(h, h', other)
    ensures Contained(s, s', h, h', Some(token))
  {
    hide Extends;
  }

  lemma OtherEntriesStay(h: History, token: string, e: ClaimEntry)
    requires TokensOk(h) && token in h.byToken
    ensures var h' := h.(claims := h.claims[h.byToken[token] := e]);
            forall other :: other != token ==> SameEntry(h, h', other)
  {
  }

  lemma ClaimsKeepParts(now: Instant, ts: Transfers, h: History)
    requires ClaimsOk(now, ts, h)
    ensures LogOk(now, h) && HoldersOk(ts, h) && TokensOk(h) && EntriesOk(now, h.claims)
  {
  }

  // ----------------------------------------------------------------- create

  /** The index answers with the transfer of exactly that tenant and key. */
  lemma FoundIsTheOne(issuer: Issuer, s: State, tenant: string, key: string)
    requires Consistent(issuer, s) && ColonFree(tenant)
    requires FindByIdempotency(s, tenant, key).Some?
    ensures var t := FindByIdempotency(s, tenant, key).value;
            && t.id in s.transfers && s.transfers[t.id] == t
            && t.tenant == tenant && t.idempotencyKey == key && t.requestHash != ""
  {
    var t := FindByIdempotency(s, tenant, key).value;
    assert Sound(issuer, t);
    assert IdemKey(t) == StoreKey(tenant, key);
    StoreKeyInjective(t.tenant, t.idempotencyKey, tenant, key);
  }

  lemma FindPhase(issuer: Issuer, s: State, now: Instant, h: History, p: Phase)
    requires p.CreateFind? || p.CreateRefind?
    requires Before(issuer, s, now, h, p)
    ensures After(issuer, s, now, h, p, Advance(s, now, p, Nothing))
  {
    hide Consistent, ClaimsOk, CreatesOk, Contained;
    ContainedSame(s, h, Nonce(p));
    var found := FindByIdempotency(s, p.req.tenant, p.req.idempotencyKey);
    if found.Some? {
      FoundIsTheOne(issuer, s, p.req.tenant, p.req.idempotencyKey);
      if found.value.requestHash == p.hash {
        var e := CreateEntry(p.req.tenant, p.req.idempotencyKey, p.hash, found.value.id, true);
        ReplayLogged(s.transfers, h, e);
        var h' := h.(creates := h.creates + [e]);
        SameClaimLog(now, s.transfers, h, h');
        ContainedCreateLog(s, s, h, h', Nonce(p));
      }
    }
  }

  lemma SameClaimLog(now: Instant, ts: Transfers, h: History, h': History)
    requires ClaimsOk(now, ts, h)
    requires h'.claims == h.claims && h'.byToken == h.byToken && h'.latest == h.latest
    ensures ClaimsOk(now, ts, h')
  {
    forall id | id in ts
      ensures HolderOk(ts[id], h')
    {
      assert HolderOk(ts[id], h);
    }
  }

  lemma ContainedCreateLog(s: State, s': State, h: History, h': History, nonce: Option<string>)
    requires Contained(s, s', h, h, nonce)
    requires h'.claims == h.claims && h'.byToken == h.byToken
    ensures Contained(s, s', h, h', nonce)
  {
    hide Extends;
    forall token | nonce != Some(token)
      ensures SameEntry(h, h', token)
    {
      assert SameEntry(h, h, token);
    }
  }

  lemma DecidePhase(issuer: Issuer, s: State, now: Instant, h: History, p: Phase, i: Input)
    requires p.CreateDecide? && i.Resolution? && i.newId != "" && i.newId !in s.transfers
    requires Before(issuer, s, now, h, p)
    ensures After(issuer, s, now, h, p, Advance(s, now, p, i))
  {
    hide Consistent, ClaimsOk, CreatesOk, Contained, Ready;
    ContainedSame(s, h, Nonce(p));
    if i.dict.Ok? {
      NewTransferIsReady(issuer, p.req, p.hash, i.dict.value, i.newId, now);
    }
  }

  lemma InsertContained(s: State, s': State, h: History, t: Transfer)
    requires Extends(s, s') && s'.transfers == s.transfers[t.id := t]
    ensures Contained(s, s', h, h, Some(t.id))
  {
    hide Extends;
  }

  lemma NewHolder(now: Instant, ts: Transfers, h: History, t: Transfer)
    requires ClaimsOk(now, ts, h) && t.id !in ts && t.claimedUntil.None? && t.claimToken == ""
    ensures ClaimsOk(now, ts[t.id := t], h)
  {
    hide LogOk;
    assert HolderOk(t, h);
    HoldersCarryOver(ts, h, t);
  }

  lemma InsertPhase(issuer: Issuer, s: State, now: Instant, h: History, p: Phase)
    requires p.CreateInsert?
    requires Before(issuer, s, now, h, p)
    ensures After(issuer, s, now, h, p, Advance(s, now, p, Nothing))
  {
    hide Consistent, ClaimsOk, CreatesOk, Contained, Ready, Extends;
    var t := p.transfer;
    InsertStep(issuer, s, t, p.events, p.audit);
    var r := InsertTransfer(s, t, p.events, [p.audit]);
    if r.result.Ok? {
      InsertContained(s, r.state, h, t);
      NewHolder(now, s.transfers, h, t);
      var e := CreateEntry(p.req.tenant, p.req.idempotencyKey, p.hash, t.id, false);
      BirthLogged(s, r.state, h, t, e);
      var h' := h.(creates := h.creates + [e], born := h.born[t.id := |h.creates|]);
      SameClaimLog(now, r.state.transfers, h, h');
      ContainedCreateLog(s, r.state, h, h', Some(t.id));
    } else {
      ContainedSame(s, h, Some(t.id));
    }
  }

  // ----------------------------------------------------------------- submit

  /** What a successful claim does to its transfer. */
  lemma ClaimGoesThrough(s: State, p: Phase, now: Instant)
    requires p.SubmitClaim? && Filed(s)
    ensures Advance(s, now, p, Nothing).state == ClaimSpi(s, p.tenant, p.id, p.token, p.until, now).state
    ensures Advance(s, now, p, Nothing).move.Ends? ==>
              Advance(s, now, p, Nothing).state == s && !Advance(s, now, p, Nothing).move.answer.Created?
    ensures Advance(s, now, p, Nothing).move.Goes? ==>
            var e := Advance(s, now, p, Nothing);
            && p.id in s.transfers && s.transfers[p.id].status.Accepted?
            && (s.transfers[p.id].claimedUntil.Some? ==> s.transfers[p.id].claimedUntil.value <= now)
            && e.move.phase.SubmitCall? && e.move.phase.current.id == p.id && e.move.phase.id == p.id
            && e.move.phase.tenant == p.tenant == s.transfers[p.id].tenant
            && e.move.phase.token == p.token
            && e.move.phase.current == s.transfers[p.id].(claimToken := p.token, claimedUntil := Some(p.until),
                 attempts := s.transfers[p.id].attempts + 1, lastError := "", updatedAt := now)
            && e.state == s.(transfers := s.transfers[p.id := e.move.phase.current])
  {
  }

  /** After a claim the transfer repeats the new latest entry; others keep theirs. */
  lemma ClaimHolders(ts: Transfers, h: History, t': Transfer, now: Instant, until: Instant)
    requires HoldersOk(ts, h) && t'.id in ts && t'.status.Accepted? && t'.claimToken != "" && t'.claimedUntil == Some(until)
    requires forall id :: id in ts ==> ts[id].id == id
    ensures HoldersOk(ts[t'.id := t'], LogClaim(h, t'.id, t'.claimToken, now, until))
  {
    var h' := LogClaim(h, t'.id, t'.claimToken, now, until);
    forall id | id in ts && id != t'.id
      ensures HolderOk(ts[id], h')
    {
      assert HolderOk(ts[id], h);
    }
  }

  lemma ClaimEntries(h: History, id: string, token: string, now: Instant, until: Instant)
    requires TokensOk(h) && token !in h.byToken
    ensures var h' := LogClaim(h, id, token, now, until);
            forall other :: other != token ==> SameEntry(h, h', other)
  {
  }

  lemma FiledWhenConsistent(issuer: Issuer, s: State)
    requires Consistent(issuer, s)
    ensures Filed(s)
  {
  }

  lemma HolderFree(now: Instant, ts: Transfers, h: History, id: string)
    requires ClaimsOk(now, ts, h) && id in ts && ts[id].id == id && ts[id].status.Accepted?
    requires ts[id].claimedUntil.Some? ==> ts[id].claimedUntil.value <= now
    ensures id in h.latest ==> h.latest[id] < |h.claims| && FreeAt(h.claims[h.latest[id]]) <= now
  {
    assert HolderOk(ts[id], h);
  }

  lemma ClaimPhase(issuer: Issuer, s: State, now: Instant, h: History, p: Phase)
    requires p.SubmitClaim?
    requires Before(issuer, s, now, h, p)
    ensures After(issuer, s, now, h, p, Advance(s, now, p, Nothing))
  {
    hide Consistent, CreatesOk, Contained, Extends, LogOk, HoldersOk, SameEntry, Advance, ClaimSpi;
    ClaimStep(issuer, s, p.tenant, p.id, p.token, p.until, now);
    FiledWhenConsistent(issuer, s);
    ClaimGoesThrough(s, p, now);
    var e := Advance(s, now, p, Nothing);
    if e.move.Goes? {
      var t' := e.move.phase.current;
      var h' := LogClaim(h, p.id, p.token, now, p.until);
      HolderFree(now, s.transfers, h, p.id);
      ClaimsKeepParts(now, s.transfers, h);
      ClaimLogged(now, h, p.id, p.token, p.until);
      assert p.token != "";
      ClaimHolders(s.transfers, h, t', now, p.until);
      ClaimEntries(h, p.id, p.token, now, p.until);
      ContainedLog(s, e.state, h, h', p.token);
      CreatesCarryOver(s, e.state, h, h');
    } else {
      ContainedSame(s, h, Nonce(p));
    }
  }

  lemma ReturnHolders(ts: Transfers, h: History, k: nat, e: ClaimEntry)
    requires HoldersOk(ts, h) && k < |h.claims|
    requires e.token == h.claims[k].token && e.until == h.claims[k].until && e.retryAt == h.claims[k].retryAt
    ensures HoldersOk(ts, h.(claims := h.claims[k := e]))
  {
    var h' := h.(claims := h.claims[k := e]);
    forall id | id in ts
      ensures HolderOk(ts[id], h')
    {
      assert HolderOk(ts[id], h);
    }
  }

  lemma ReturnPhase(issuer: Issuer, s: State, now: Instant, h: History, p: Phase, i: Input)
    requires p.SubmitCall? && i.SpiAnswer?
    requires i.answer.Ok? ==> issuer(i.answer.value.messageId) == p.id
    requires Before(issuer, s, now, h, p)
    ensures After(issuer, s, now, h, p, Advance(s, now, p, i))
  {
    hide Consistent, CreatesOk, Contained, Extends, LogOk, HoldersOk, SameEntry, Noted, TokensOk, EntriesOk;
    var k := h.byToken[p.token];
    var e := h.claims[k].(returned := Some(now));
    var h' := h.(claims := h.claims[k := e]);
    ClaimsKeepParts(now, s.transfers, h);
    EntryReturns(now, h, k);
    EntryAmended(now, h, k, e);
    ReturnHolders(s.transfers, h, k, e);
    OtherEntriesStay(h, p.token, e);
    ExtendsReflexive(s);
    ContainedLog(s, s, h, h', p.token);
    CreatesCarryOver(s, s, h, h');
    if i.answer.Ok? {
      SubmissionIsNoted(p.current, p.correlation, now, i.answer.value);
    }
  }

  lemma EntryReturns(now: Instant, h: History, k: nat)
    requires EntriesOk(now, h.claims) && k < |h.claims| && h.claims[k].returned.None?
    ensures EntryOk(now, h.claims[k].(returned := Some(now)))
    ensures Amends(h.claims[k], h.claims[k].(returned := Some(now)))
  {
    assert EntryOk(now, h.claims[k]);
  }

  lemma RecordHolders(ts: Transfers, h: History, t': Transfer)
    requires HoldersOk(ts, h) && t'.id in ts && ts[t'.id].id == t'.id
    requires !t'.status.Accepted? && !t'.status.Review? && t'.claimToken == ""
    ensures HoldersOk(ts[t'.id := t'], h)
  {
    assert HolderOk(ts[t'.id], h);
    assert HolderOk(t', h);
    HoldersCarryOver(ts, h, t');
  }

  lemma RecordPhase(issuer: Issuer, s: State, now: Instant, h: History, p: Phase)
    requires p.SubmitRecord?
    requires Before(issuer, s, now, h, p)
    ensures After(issuer, s, now, h, p, Advance(s, now, p, Nothing))
  {
    hide Consistent, CreatesOk, Contained, Extends, LogOk, HoldersOk, Noted, Enqueue;
    RecordStep(issuer, s, p.tenant, p.id, p.token, p.message, p.events, p.audit);
    var r := RecordSpi(s, p.tenant, p.id, p.token, p.message, p.events, p.audit);
    if r.result.Ok? && !r.result.value.replay {
      FiledWhenConsistent(issuer, s);
      RecordHolders(s.transfers, h, r.result.value.transfer);
    }
    FiledWhenConsistent(issuer, s);
    ContainedCommit(s, r.state, h, Nonce(p));
    CreatesCarryOver(s, r.state, h, h);
  }

  lemma ReleaseHolders(ts: Transfers, h: History, t': Transfer, k: nat, e: ClaimEntry)
    requires HoldersOk(ts, h) && t'.id in h.latest && h.latest[t'.id] == k < |h.claims|
    requires LatestOk(h)
    requires t'.status.Accepted? && t'.claimToken == "" && e.retryAt.Some? && t'.claimedUntil == e.retryAt
    requires t'.id in ts && forall id :: id in ts ==> ts[id].id == id
    ensures HoldersOk(ts[t'.id := t'], h.(claims := h.claims[k := e]))
  {
    var h' := h.(claims := h.claims[k := e]);
    forall id | id in ts && id != t'.id
      ensures HolderOk(ts[id], h')
    {
      assert HolderOk(ts[id], h);
      assert id in h.latest ==> h.claims[h.latest[id]].id == id && h.claims[k].id == t'.id;
    }
  }

  lemma EntryReleases(now: Instant, h: History, k: nat, retryAt: Instant)
    requires EntriesOk(now, h.claims) && k < |h.claims| && h.claims[k].returned.Some?
    requires retryAt == h.claims[k].returned.value + SPI_RETRY_DELAY
    ensures EntryOk(now, h.claims[k].(retryAt := Some(retryAt)))
    ensures Amends(h.claims[k], h.claims[k].(retryAt := Some(retryAt)))
  {
    assert EntryOk(now, h.claims[k]);
  }

  /** The holder of the current token made the latest claim. */
  lemma HolderIsLatest(now: Instant, ts: Transfers, h: History, id: string, token: string)
    requires ClaimsOk(now, ts, h) && id in ts && ts[id].id == id && ts[id].claimToken == token != ""
    ensures id in h.latest && token in h.byToken && h.byToken[token] == h.latest[id] < |h.claims|
    ensures LatestOk(h)
  {
    assert HolderOk(ts[id], h);
  }

  /** Only the current holder's release changes anything. */
  lemma ReleaseGoesThrough(issuer: Issuer, s: State, now: Instant, p: Phase)
    requires p.SubmitRelease? && Consistent(issuer, s) && Known(s, p.tenant, p.id) && p.token != ""
    ensures var t := s.transfers[p.id]; var s' := Advance(s, now, p, Nothing).state;
            && s' == ReleaseSpi(s, p.tenant, p.id, p.token, p.lastError, p.retryAt, now).state
            && Advance(s, now, p, Nothing).move.Ends?
            && (t.claimToken != p.token ==> s' == s)
            && (t.claimToken == p.token ==>
                  && t.status.Accepted?
                  && s' == s.(transfers := s.transfers[p.id := t.(claimToken := "", claimedUntil := Some(p.retryAt),
                                                                  lastError := p.lastError, updatedAt := now)]))
  {
    assert s.transfers[p.id].id == p.id && Sound(issuer, s.transfers[p.id]);
  }

  lemma ReleasePhase(issuer: Issuer, s: State, now: Instant, h: History, p: Phase)
    requires p.SubmitRelease?
    requires Before(issuer, s, now, h, p)
    ensures After(issuer, s, now, h, p, Advance(s, now, p, Nothing))
  {
    hide Consistent, CreatesOk, Contained, Extends, LogOk, HoldersOk, SameEntry, TokensOk, LatestOk, EntriesOk, Advance, ReleaseSpi;
    ReleaseStep(issuer, s, p.tenant, p.id, p.token, p.lastError, p.retryAt, now);
    ReleaseGoesThrough(issuer, s, now, p);
    FiledWhenConsistent(issuer, s);
    var s' := Advance(s, now, p, Nothing).state;
    if s.transfers[p.id].claimToken == p.token {
      HolderIsLatest(now, s.transfers, h, p.id, p.token);
      ClaimsKeepParts(now, s.transfers, h);
      var k := h.byToken[p.token];
      var e := h.claims[k].(retryAt := Some(p.retryAt));
      var h' := h.(claims := h.claims[k := e]);
      EntryReleases(now, h, k, p.retryAt);
      EntryAmended(now, h, k, e);
      ReleaseHolders(s.transfers, h, s'.transfers[p.id], k, e);
      OtherEntriesStay(h, p.token, e);
      ContainedLog(s, s', h, h', p.token);
      CreatesCarryOver(s, s', h, h');
    } else {
      ContainedSame(s, h, Nonce(p));
    }
  }

  // ---------------------------------------------------- review and settlement

  lemma ReviewReadPhase(issuer: Issuer, s: State, now: Instant, h: History, p: Phase)
    requires p.ReviewRead?
    requires Before(issuer, s, now, h, p)
    ensures After(issuer, s, now, h, p, Advance(s, now, p, Nothing))
  {
    hide Consistent, ClaimsOk, CreatesOk, Contained, Noted;
    ContainedSame(s, h, Nonce(p));
    FiledWhenConsistent(issuer, s);
    if PrepareReview(s, p.review).Goes? {
      ReviewIsNoted(s, p.review);
    }
  }

  lemma ReviewHolders(issuer: Issuer, ts: Transfers, h: History, t: Transfer, t': Transfer)
    requires HoldersOk(ts, h) && t.id in ts && ts[t.id] == t && t.status.Review? && WellFormed(t)
    requires t'.id == t.id && (t'.status.Accepted? || t'.status.Blocked?)
    requires t'.claimToken == t.claimToken && t'.claimedUntil == t.claimedUntil
    ensures HoldersOk(ts[t'.id := t'], h)
  {
    assert HolderOk(t, h);
    assert HolderOk(t', h);
    HoldersCarryOver(ts, h, t');
  }

  lemma ReviewCommitPhase(issuer: Issuer, s: State, now: Instant, h: History, p: Phase)
    requires p.ReviewCommit?
    requires Before(issuer, s, now, h, p)
    ensures After(issuer, s, now, h, p, Advance(s, now, p, Nothing))
  {
    hide Consistent, CreatesOk, Contained, Extends, LogOk, HoldersOk, Noted, Enqueue;
    ReviewStep(issuer, s, p.tenant, p.id, p.status, p.reason, p.events, p.audit);
    FiledWhenConsistent(issuer, s);
    var r := Store.RecordReview(s, p.tenant, p.id, p.status, p.reason, p.events, p.audit);
    if r.result.Ok? {
      SoundAt(issuer, s, p.id);
      ReviewHolders(issuer, s.transfers, h, s.transfers[p.id], r.result.value);
    }
    ContainedCommit(s, r.state, h, Nonce(p));
    CreatesCarryOver(s, r.state, h, h);
  }

  lemma SettleReadPhase(issuer: Issuer, s: State, now: Instant, h: History, p: Phase)
    requires p.SettleRead?
    requires Before(issuer, s, now, h, p)
    ensures After(issuer, s, now, h, p, Advance(s, now, p, Nothing))
  {
    hide Consistent, ClaimsOk, CreatesOk, Contained, Noted;
    ContainedSame(s, h, Nonce(p));
    FiledWhenConsistent(issuer, s);
    if PrepareSettlement(s, p.callback).Goes? {
      SettlementIsNoted(s, p.callback);
    }
  }

  lemma SettleCommitPhase(issuer: Issuer, s: State, now: Instant, h: History, p: Phase)
    requires p.SettleCommit?
    requires Before(issuer, s, now, h, p)
    ensures After(issuer, s, now, h, p, Advance(s, now, p, Nothing))
  {
    hide Consistent, CreatesOk, Contained, Extends, LogOk, HoldersOk, Noted, Enqueue, EffectiveHash;
    SettleStep(issuer, s, p.callback, p.events, p.audit);
    FiledWhenConsistent(issuer, s);
    var id := p.callback.transferId;
    var r := UpdateSettlement(s, p.callback.tenant, id, p.callback, p.events, p.audit);
    if r.result.Ok? && !r.result.value.replay {
      SoundAt(issuer, s, id);
      RecordHolders(s.transfers, h, r.result.value.transfer);
    }
    ContainedCommit(s, r.state, h, Nonce(p));
    CreatesCarryOver(s, r.state, h, h);
  }

  // ---------------------------------------------------------------- together

  /** Every phase of every call. */
  lemma EveryPhase(issuer: Issuer, s: State, now: Instant, h: History, p: Phase, i: Input)
    requires Fits(p, i) && Before(issuer, s, now, h, p)
    requires i.Resolution? ==> i.newId != "" && i.newId !in s.transfers
    requires i.SpiAnswer? && i.answer.Ok? ==> issuer(i.answer.value.messageId) == p.id
    ensures After(issuer, s, now, h, p, Advance(s, now, p, i))
  {
    hide Before, After, Advance;
    match p
    case CreateFind(_, _) => FindPhase(issuer, s, now, h, p);
    case CreateDecide(_, _) => DecidePhase(issuer, s, now, h, p, i);
    case CreateInsert(_, _, _, _, _) => InsertPhase(issuer, s, now, h, p);
    case CreateRefind(_, _) => FindPhase(issuer, s, now, h, p);
    case SubmitClaim(_, _, _, _, _) => ClaimPhase(issuer, s, now, h, p);
    case SubmitCall(_, _, _, _, _, _) => ReturnPhase(issuer, s, now, h, p, i);
    case SubmitRecord(_, _, _, _, _, _) => RecordPhase(issuer, s, now, h, p);
    case SubmitRelease(_, _, _, _, _) => ReleasePhase(issuer, s, now, h, p);
    case ReviewRead(_) => ReviewReadPhase(issuer, s, now, h, p);
    case ReviewCommit(_, _, _, _, _, _) => ReviewCommitPhase(issuer, s, now, h, p);
    case SettleRead(_) => SettleReadPhase(issuer, s, now, h, p);
    case SettleCommit(_, _, _) => SettleCommitPhase(issuer, s, now, h, p);
  }
}
