/** The inductive invariant of the switch, one conjunct per concern, and how each
    phase of a call keeps it. */
module Invariant {
  import opened Wrappers
  import opened Text
  import opened Instants
  import opened Rail
  import opened Events
  import opened Outbox
  import opened Store
  import opened Lifecycle
  import opened Calls
  import opened Consistency
  import opened StoreSteps
  import opened World

  // ------------------------------------------------------------- the claim log

  /** When a claim stops keeping others away. */
  function FreeAt(e: ClaimEntry): Instant {
    if e.retryAt.Some? then e.retryAt.value else e.until
  }

  /** The later claim waited for the earlier one's expiry, or for the retry time
      that its release set. */
  predicate Separated(e: ClaimEntry, f: ClaimEntry) {
    FreeAt(e) <= f.at
  }

  predicate EntryOk(now: Instant, e: ClaimEntry) {
    && e.at <= now
    && (e.returned.Some? ==> e.returned.value <= now)
    && (e.retryAt.Some? ==> e.returned.Some? && e.retryAt.value == e.returned.value + SPI_RETRY_DELAY)
  }

  ghost predicate TokensOk(h: History) {
    && (forall k :: k in h.byToken ==> h.byToken[k] < |h.claims| && h.claims[h.byToken[k]].token == k)
    && (forall i :: 0 <= i < |h.claims| ==> h.claims[i].token in h.byToken && h.byToken[h.claims[i].token] == i)
  }

  ghost predicate LatestOk(h: History) {
    && (forall id :: id in h.latest ==> h.latest[id] < |h.claims| && h.claims[h.latest[id]].id == id)
    && (forall i :: 0 <= i < |h.claims| ==> h.claims[i].id in h.latest && i <= h.latest[h.claims[i].id])
  }

  ghost predicate AllSeparated(claims: seq<ClaimEntry>) {
    forall i, j :: 0 <= i < j < |claims| && claims[i].id == claims[j].id ==> Separated(claims[i], claims[j])
  }

  ghost predicate EntriesOk(now: Instant, claims: seq<ClaimEntry>) {
    forall i :: 0 <= i < |claims| ==> EntryOk(now, claims[i])
  }

  /** A transfer's claim fields repeat its latest claim. */
  predicate HolderOk(t: Transfer, h: History) {
    && (t.id in h.latest ==> h.latest[t.id] < |h.claims|)
    && (t.status.Review? ==> t.id !in h.latest)
    && (t.status.Accepted? ==>
          t.claimedUntil == if t.id in h.latest then Some(FreeAt(h.claims[h.latest[t.id]])) else None)
    && (t.claimToken != "" ==>
          t.id in h.latest && h.claims[h.latest[t.id]].token == t.claimToken && h.claims[h.latest[t.id]].retryAt.None?)
  }

  ghost predicate HoldersOk(ts: Transfers, h: History) {
    && (forall id :: id in ts ==> HolderOk(ts[id], h))
    && (forall id :: id in h.latest ==> id in ts)
  }

  ghost predicate ClaimsOk(now: Instant, ts: Transfers, h: History) {
    LogOk(now, h) && HoldersOk(ts, h)
  }

  // ------------------------------------------------------------ the create log

  predicate Matches(ts: Transfers, e: CreateEntry) {
    && e.id in ts
    && ts[e.id].tenant == e.tenant && ts[e.id].idempotencyKey == e.key && ts[e.id].requestHash == e.hash
  }

  ghost predicate CreatesOk(ts: Transfers, h: History) {
    && (forall i :: 0 <= i < |h.creates| ==> Matches(ts, h.creates[i]))
    && (forall id :: id in ts ==>
          id in h.born && h.born[id] < |h.creates| && h.creates[h.born[id]].id == id && !h.creates[h.born[id]].replay)
    && (forall i :: 0 <= i < |h.creates| && !h.creates[i].replay ==>
          h.creates[i].id in h.born && h.born[h.creates[i].id] == i)
  }

  // -------------------------------------------------------------- the calls

  predicate HasClaim(h: History, token: string, id: string) {
    && token != "" && token in h.byToken && h.byToken[token] < |h.claims|
    && h.claims[h.byToken[token]].id == id
  }

  /** What a call in flight may rely on. */
  ghost predicate PhaseOk(issuer: Issuer, s: State, h: History, p: Phase) {
    match p
    case CreateFind(req, hash) => RequestOk(req, hash)
    case CreateDecide(req, hash) => RequestOk(req, hash)
    case CreateInsert(req, hash, t, events, audit) =>
      && RequestOk(req, hash) && Ready(issuer, t, events, audit)
      && t.id !in s.transfers
      && t.tenant == req.tenant && t.idempotencyKey == req.idempotencyKey && t.requestHash == hash
      && t.claimedUntil.None? && t.claimToken == ""
    case CreateRefind(req, hash) =>
      RequestOk(req, hash) && StoreKey(req.tenant, req.idempotencyKey) in s.idempotency
    case SubmitClaim(_, _, _, token, _) => Trim(token) != "" && token !in h.byToken
    case SubmitCall(tenant, id, _, token, _, current) =>
      && Known(s, tenant, id) && HasClaim(h, token, id) && current.id == id
      && h.claims[h.byToken[token]].returned.None? && h.claims[h.byToken[token]].retryAt.None?
    case SubmitRecord(tenant, id, token, message, events, audit) =>
      && Known(s, tenant, id) && HasClaim(h, token, id)
      && issuer(message.messageId) == id
      && Noted(id, events, SUBMISSION_KINDS, audit, SubmissionRecorded)
    case SubmitRelease(tenant, id, token, _, retryAt) =>
      && Known(s, tenant, id) && HasClaim(h, token, id)
      && h.claims[h.byToken[token]].returned.Some?
      && retryAt == h.claims[h.byToken[token]].returned.value + SPI_RETRY_DELAY
    case ReviewRead(_) => true
    case ReviewCommit(_, id, status, _, events, audit) =>
      (status.Accepted? || status.Blocked?) && Noted(id, events, ReviewKinds(status), audit, ReviewRecorded)
    case SettleRead(callback) => callback.callbackHash != ""
    case SettleCommit(callback, events, audit) =>
      && callback.callbackHash != "" && !callback.status.OtherSettlement?
      && Known(s, callback.tenant, callback.transferId)
      && s.transfers[callback.transferId].spiMessageId == callback.spiMessageId != ""
      && Noted(callback.transferId, events, SettlementKinds(callback), audit, SettlementRecorded)
  }

  /** The new id or token that only this call holds. */
  function Nonce(p: Phase): Option<string> {
    match p
    case CreateInsert(_, _, t, _, _) => Some(t.id)
    case SubmitClaim(_, _, _, token, _) => Some(token)
    case SubmitCall(_, _, _, token, _, _) => Some(token)
    case SubmitRecord(_, _, token, _, _, _) => Some(token)
    case SubmitRelease(_, _, token, _, _) => Some(token)
    case _ => None
  }

  ghost predicate CallsOk(issuer: Issuer, s: State, h: History, calls: map<nat, Phase>) {
    forall c :: c in calls ==> PhaseOk(issuer, s, h, calls[c])
  }

  ghost predicate NoncesOk(issued: set<string>, calls: map<nat, Phase>) {
    && (forall c :: c in calls && Nonce(calls[c]).Some? ==> Nonce(calls[c]).value in issued)
    && (forall c, d :: c in calls && d in calls && c != d && Nonce(calls[c]).Some? ==> Nonce(calls[c]) != Nonce(calls[d]))
  }

  ghost predicate IssuedOk(issued: set<string>, ts: Transfers, h: History) {
    ts.Keys <= issued && h.byToken.Keys <= issued
  }

  ghost predicate Inv(issuer: Issuer, w: World) {
    && Consistent(issuer, w.store)
    && ClaimsOk(w.clock, w.store.transfers, w.hist)
    && CreatesOk(w.store.transfers, w.hist)
    && CallsOk(issuer, w.store, w.hist, w.calls)
    && NoncesOk(w.issued, w.calls)
    && IssuedOk(w.issued, w.store.transfers, w.hist)
  }

  lemma InitialInv(issuer: Issuer)
    ensures Inv(issuer, INITIAL)
  {
    EmptyConsistent(issuer);
  }

  // ------------------------------------------- what a phase leaves to others

  predicate SameEntry(h: History, h': History, token: string) {
    && (token in h.byToken <==> token in h'.byToken)
    && (token in h.byToken ==> h'.byToken[token] == h.byToken[token])
    && (token in h.byToken && h.byToken[token] < |h.claims| ==>
          h.byToken[token] < |h'.claims| && h'.claims[h.byToken[token]] == h.claims[h.byToken[token]])
  }

  /** A phase that held `nonce` extended the store, inserted at most the transfer
      `nonce`, and touched at most the claim made by token `nonce`. */
  ghost predicate Contained(s: State, s': State, h: History, h': History, nonce: Option<string>) {
    && Extends(s, s')
    && (forall id :: id in s'.transfers ==> id in s.transfers || nonce == Some(id))
    && (forall token :: nonce != Some(token) ==> SameEntry(h, h', token))
  }

  /** Whatever one call does, a call that holds another nonce goes on undisturbed. */
  lemma OthersUndisturbed(issuer: Issuer, s: State, s': State, h: History, h': History, nonce: Option<string>, p: Phase)
    requires PhaseOk(issuer, s, h, p) && Contained(s, s', h, h', nonce)
    requires Nonce(p).Some? ==> nonce != Nonce(p)
    ensures PhaseOk(issuer, s', h', p)
  {
    hide Ready, Noted, RequestOk, Extends;
    match p
    case CreateInsert(_, _, t, _, _) =>
    case CreateRefind(req, _) => KeepsIndex(s, s', StoreKey(req.tenant, req.idempotencyKey));
    case SubmitClaim(_, _, _, token, _) => assert SameEntry(h, h', token);
    case SubmitCall(_, id, _, token, _, _) => assert SameEntry(h, h', token); KeepsTransfer(s, s', id);
    case SubmitRecord(_, id, token, _, _, _) => assert SameEntry(h, h', token); KeepsTransfer(s, s', id);
    case SubmitRelease(_, id, token, _, _) => assert SameEntry(h, h', token); KeepsTransfer(s, s', id);
    case SettleCommit(callback, _, _) => KeepsTransfer(s, s', callback.transferId);
    case _ =>
  }

  lemma KeepsTransfer(s: State, s': State, id: string)
    requires Extends(s, s') && id in s.transfers
    ensures id in s'.transfers && Evolves(s.transfers[id], s'.transfers[id])
    ensures s'.transfers[id].tenant == s.transfers[id].tenant
    ensures s'.transfers[id].idempotencyKey == s.transfers[id].idempotencyKey
    ensures s'.transfers[id].requestHash == s.transfers[id].requestHash
  {
    assert s.transfers[id].tenant == Core(s.transfers[id]).tenant;
    assert s.transfers[id].idempotencyKey == Core(s.transfers[id]).idempotencyKey;
    assert s.transfers[id].requestHash == Core(s.transfers[id]).requestHash;
  }

  lemma KeepsIndex(s: State, s': State, k: string)
    requires Extends(s, s') && k in s.idempotency
    ensures k in s'.idempotency && s'.idempotency[k] == s.idempotency[k]
  {
  }

  // ------------------------------------------------------- the logs, step by step

  lemma CreatesCarryOver(s: State, s': State, h: History, h': History)
    requires CreatesOk(s.transfers, h) && Extends(s, s') && s'.transfers.Keys == s.transfers.Keys
    requires h'.creates == h.creates && h'.born == h.born
    ensures CreatesOk(s'.transfers, h')
  {
    hide Extends;
    forall i | 0 <= i < |h.creates|
      ensures Matches(s'.transfers, h.creates[i])
    {
      KeepsTransfer(s, s', h.creates[i].id);
    }
  }

  /** A replay adds an entry that agrees with the stored transfer. */
  lemma ReplayLogged(ts: Transfers, h: History, e: CreateEntry)
    requires CreatesOk(ts, h) && Matches(ts, e) && e.replay
    ensures CreatesOk(ts, h.(creates := h.creates + [e]))
  {
  }

  lemma BirthLogged(s: State, s': State, h: History, t: Transfer, e: CreateEntry)
    requires CreatesOk(s.transfers, h) && t.id !in s.transfers && s'.transfers == s.transfers[t.id := t]
    requires e.id == t.id && !e.replay && Matches(s'.transfers, e)
    ensures CreatesOk(s'.transfers, h.(creates := h.creates + [e], born := h.born[t.id := |h.creates|]))
  {
  }

  /** Changing a transfer without touching its claim fields. */
  lemma HoldersCarryOver(ts: Transfers, h: History, t': Transfer)
    requires HoldersOk(ts, h)
    requires HolderOk(t', h)
    ensures HoldersOk(ts[t'.id := t'], h)
  {
  }

  lemma ClaimLoggedApart(now: Instant, h: History, id: string, token: string, until: Instant)
    requires LatestOk(h) && AllSeparated(h.claims) && EntriesOk(now, h.claims)
    requires id in h.latest ==> FreeAt(h.claims[h.latest[id]]) <= now
    ensures AllSeparated(h.claims + [ClaimEntry(id, token, now, until, None, None)])
  {
    var e := ClaimEntry(id, token, now, until, None, None);
    forall i | 0 <= i < |h.claims| && h.claims[i].id == id
      ensures Separated(h.claims[i], e)
    {
      var k := h.latest[id];
      assert EntryOk(now, h.claims[k]);
      if i < k {
        assert Separated(h.claims[i], h.claims[k]);
      }
    }
  }

  lemma TokenLogged(h: History, e: ClaimEntry)
    requires TokensOk(h) && e.token !in h.byToken
    ensures TokensOk(h.(claims := h.claims + [e], byToken := h.byToken[e.token := |h.claims|]))
  {
  }

  lemma LatestLogged(h: History, e: ClaimEntry)
    requires LatestOk(h)
    ensures LatestOk(h.(claims := h.claims + [e], latest := h.latest[e.id := |h.claims|]))
  {
  }

  /** The log's own consistency, apart from the transfers. */
  ghost predicate LogOk(now: Instant, h: History) {
    TokensOk(h) && LatestOk(h) && AllSeparated(h.claims) && EntriesOk(now, h.claims)
  }

  lemma ClaimLogged(now: Instant, h: History, id: string, token: string, until: Instant)
    requires LogOk(now, h) && token !in h.byToken
    requires id in h.latest ==> h.latest[id] < |h.claims| && FreeAt(h.claims[h.latest[id]]) <= now
    ensures LogOk(now, LogClaim(h, id, token, now, until))
  {
    hide AllSeparated, FreeAt, TokensOk, LatestOk;
    var e := ClaimEntry(id, token, now, until, None, None);
    var h' := LogClaim(h, id, token, now, until);
    ClaimLoggedApart(now, h, id, token, until);
    TokenLogged(h, e);
    LatestLogged(h, e);
    SameTokens(h.(claims := h.claims + [e], byToken := h.byToken[token := |h.claims|]), h');
    SameLatest(h.(claims := h.claims + [e], latest := h.latest[id := |h.claims|]), h');
  }

  lemma SameTokens(h: History, h': History)
    requires TokensOk(h) && h'.claims == h.claims && h'.byToken == h.byToken
    ensures TokensOk(h')
  {
  }

  lemma SameLatest(h: History, h': History)
    requires LatestOk(h) && h'.claims == h.claims && h'.latest == h.latest
    ensures LatestOk(h')
  {
  }

  /** An entry filled in: same claim, and a return once logged stays. */
  predicate Amends(e: ClaimEntry, e': ClaimEntry) {
    && e'.id == e.id && e'.token == e.token && e'.at == e.at && e'.until == e.until
    && (e.returned.Some? ==> e'.returned == e.returned)
  }

  lemma AmendedTokens(h: History, k: nat, e: ClaimEntry)
    requires TokensOk(h) && k < |h.claims| && Amends(h.claims[k], e)
    ensures TokensOk(h.(claims := h.claims[k := e]))
  {
  }

  lemma AmendedLatest(h: History, k: nat, e: ClaimEntry)
    requires LatestOk(h) && k < |h.claims| && Amends(h.claims[k], e)
    ensures LatestOk(h.(claims := h.claims[k := e]))
  {
  }

  lemma AmendedApart(h: History, k: nat, e: ClaimEntry)
    requires LatestOk(h) && AllSeparated(h.claims) && k < |h.claims| && Amends(h.claims[k], e)
    requires FreeAt(e) == FreeAt(h.claims[k]) || h.latest[e.id] == k
    ensures AllSeparated(h.claims[k := e])
  {
    var after := h.claims[k := e];
    forall i, j | 0 <= i < j < |after| && after[i].id == after[j].id
      ensures Separated(after[i], after[j])
    {
      assert Separated(h.claims[i], h.claims[j]);
      assert j <= h.latest[h.claims[j].id];
    }
  }

  /** An entry may get its return at any time, and its retry time only while it
      is the latest on its transfer. */
  lemma EntryAmended(now: Instant, h: History, k: nat, e: ClaimEntry)
    requires LogOk(now, h) && k < |h.claims| && Amends(h.claims[k], e) && EntryOk(now, e)
    requires FreeAt(e) == FreeAt(h.claims[k]) || (e.id in h.latest && h.latest[e.id] == k)
    ensures LogOk(now, h.(claims := h.claims[k := e]))
  {
    hide AllSeparated, TokensOk, Amends, EntryOk;
    assert h.claims[k].id in h.latest;
    AmendsSameId(h.claims[k], e);
    hide LatestOk;
    AmendedTokens(h, k, e);
    AmendedLatest(h, k, e);
    AmendedApart(h, k, e);
  }

  lemma AmendsSameId(e: ClaimEntry, e': ClaimEntry)
    requires Amends(e, e')
    ensures e'.id == e.id
  {
  }
}
