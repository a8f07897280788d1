/** A ledger kept beside every run: what each call was given, and which request, directory entry,
    review, client's answer and callback each transfer comes from.  In every run each stored
    transfer is exactly what its inputs make it, field by field. */
module Ledger {
  import opened Wrappers
  import opened Text
  import opened Instants
  import opened Rail
  import opened Events
  import opened Outbox
  import opened Store
  import opened Lifecycle
  import opened Calls
  import opened Consistency
  import opened StoreSteps
  import opened World
  import opened Invariant
  import opened PhaseSteps
  import opened WorldSteps
  import opened SwitchSafety
  import opened Solo
  import opened Outcomes
  import Fraud

  /** What a call has been given by its caller, the directory and the SPI client. */
  datatype Given =
    | Asked(req: CreateRequest)
    | LookedUp(req: CreateRequest, dict: DictEntry, at: Instant)
    | Sending
    | Answered(message: SpiMessage)
    | Reviewing(review: ReviewRequest)
    | Settling(callback: SettlementCallback)

  /** The inputs a transfer comes from. */
  datatype Entry = Entry(req: CreateRequest, dict: DictEntry, at: Instant, review: Option<ReviewRequest>,
                         answer: Option<SpiMessage>, callback: Option<SettlementCallback>)

  datatype Ledger = Ledger(given: map<nat, Given>, entries: map<string, Entry>)

  const BLANK: Ledger := Ledger(map[], map[])

  // ------------------------------------------------------------- keeping it

  /** The entry of the transfer that a call given `g` has just changed. */
  function Entered(entries: map<string, Entry>, id: string, g: Given): map<string, Entry> {
    match g
    case LookedUp(req, dict, at) => entries[id := Entry(req, dict, at, None, None, None)]
    case Answered(message) => if id in entries then entries[id := entries[id].(answer := Some(message))] else entries
    case Reviewing(review) => if id in entries then entries[id := entries[id].(review := Some(review))] else entries
    case Settling(callback) => if id in entries then entries[id := entries[id].(callback := Some(callback))] else entries
    case _ => entries
  }

  /** What a call is given by an outside answer. */
  function Learns(g: Given, i: Input, now: Instant): Given {
    match i
    case Resolution(_, _, dict, _) => if g.Asked? && dict.Ok? then LookedUp(g.req, dict.value, now) else g
    case SpiAnswer(answer) => if answer.Ok? then Answered(answer.value) else g
    case Nothing => g
  }

  ghost function Booked(issuer: Issuer, w: World, l: Ledger, a: Step): Ledger
    requires Enabled(issuer, w, a)
  {
    match a
    case StartCreate(c, req) => l.(given := l.given[c := Asked(req)])
    case StartSubmit(c, _, _, _, _) => l.(given := l.given[c := Sending])
    case StartReview(c, review) => l.(given := l.given[c := Reviewing(review)])
    case StartSettle(c, callback, _) => l.(given := l.given[c := Settling(callback)])
    case Proceed(c, i) =>
      if c !in l.given then l
      else
        var m := Advance(w.store, w.clock, w.calls[c], i).move;
        Ledger(l.given[c := Learns(l.given[c], i, w.clock)],
               if Commits(m) then Entered(l.entries, m.answer.transfer.id, l.given[c]) else l.entries)
    case _ => l
  }

  ghost function Keep(issuer: Issuer, w: World, l: Ledger, steps: seq<Step>): Ledger
    requires Runs(issuer, w, steps)
    decreases steps
  {
    if steps == [] then l else Keep(issuer, Apply(issuer, w, steps[0]), Booked(issuer, w, l, steps[0]), steps[1..])
  }

  /** The ledger of a run from the empty switch. */
  ghost function Kept(issuer: Issuer, steps: seq<Step>): Ledger
    requires Runs(issuer, INITIAL, steps)
  {
    Keep(issuer, INITIAL, BLANK, steps)
  }

  // ------------------------------------------------------- what it accounts for

  /** The engine's verdict on what an entry asks for. */
  function Verdict(e: Entry): FraudDecision {
    Fraud.Decide(e.req.amountCents, Trim(e.req.account), e.dict)
  }

  predicate Decisive(c: SettlementCallback) {
    c.status == SettlementAccepted || c.status == SettlementRejected
  }

  /** The inputs that an entry can hold together: only a transfer held for review is reviewed,
      only an accepted one is submitted, only a submitted one is settled. */
  predicate Possible(e: Entry) {
    && Acceptable(e.req)
    && (e.review.Some? ==> Verdict(e).status == Review && (e.review.value.decision == Approve || e.review.value.decision == Block))
    && (e.answer.Some? ==> if e.review.Some? then e.review.value.decision == Approve else Verdict(e).status == Accepted)
    && (e.callback.Some? ==> e.answer.Some? && e.callback.value.spiMessageId == e.answer.value.messageId && Decisive(e.callback.value))
  }

  function StatusFrom(e: Entry): Status {
    if e.callback.Some? then (if e.callback.value.status == SettlementAccepted then Settled else Rejected)
    else if e.answer.Some? then Approved
    else if e.review.Some? then (if e.review.value.decision == Approve then Accepted else Blocked)
    else Verdict(e).status
  }

  function ReasonFrom(e: Entry): string {
    if e.review.None? then Verdict(e).reason
    else if e.review.value.decision == Approve then Or(Trim(e.review.value.reason), "manual review approved")
    else Or(Trim(e.review.value.reason), "manual review blocked")
  }

  /** `t` is what its inputs make it. */
  predicate Accounted(e: Entry, t: Transfer) {
    && Possible(e)
    && MadeFrom(t, e.req, e.dict, t.id, e.at)
    && t.fraudScore == Verdict(e).score && t.fraudRules == Verdict(e).rules
    && t.status == StatusFrom(e) && t.decisionReason == ReasonFrom(e)
    && t.spiMessageId == (if e.answer.Some? then e.answer.value.messageId else "")
    && t.endToEndId == (if e.answer.Some? then e.answer.value.endToEndId else "")
    && t.settlementCode == (if e.callback.Some? then e.callback.value.code else "")
  }

  /** The hash on file is the one the deciding callback came with, or else the fingerprint of
      what it says. */
  predicate HashFiled(e: Entry, t: Transfer, callbacks: map<string, string>) {
    e.callback.Some? ==>
      var c := e.callback.value;
      && c.tenant == t.tenant && c.transferId == t.id
      && t.tenant + ":" + t.spiMessageId in callbacks
      && callbacks[t.tenant + ":" + t.spiMessageId] == Or(c.callbackHash, CallbackFingerprint(c))
  }

  /** A call in flight works on what it was given. */
  predicate Honours(g: Given, p: Phase) {
    match p
    case CreateFind(req, hash) => g.Asked? && ForRequest(g.req, req, hash)
    case CreateDecide(req, hash) => g.Asked? && ForRequest(g.req, req, hash)
    case CreateInsert(_, _, t, _, _) =>
      && g.LookedUp? && Acceptable(g.req) && MadeFrom(t, g.req, g.dict, t.id, g.at)
      && StartsAs(t, Fraud.Decide(g.req.amountCents, Trim(g.req.account), g.dict), g.at)
    case CreateRefind(_, _) => true
    case SubmitClaim(_, _, _, _, _) => true
    case SubmitCall(_, _, _, _, _, _) => true
    case SubmitRecord(_, _, _, message, _, _) => g == Answered(message)
    case SubmitRelease(_, _, _, _, _) => true
    case ReviewRead(review) => g.Reviewing? && ForReview(g.review, review)
    case ReviewCommit(tenant, id, status, reason, _, _) =>
      && g.Reviewing? && tenant == Trim(g.review.tenant) && id == Trim(g.review.transferId)
      && Decides(g.review, status, reason)
    case SettleRead(c) => g.Settling? && ForCallback(g.callback, c)
    case SettleCommit(c, _, _) => g.Settling? && ForCallback(g.callback, c) && Decisive(c)
  }

  predicate ForRequest(given: CreateRequest, req: CreateRequest, hash: string) {
    Acceptable(given) && req == Normalise(given) && hash == RequestFingerprint(given)
  }

  predicate ForReview(given: ReviewRequest, r: ReviewRequest) {
    && r.tenant == Trim(given.tenant) && r.transferId == Trim(given.transferId)
    && r.decision == given.decision && r.reason == Trim(given.reason)
  }

  predicate Decides(r: ReviewRequest, status: Status, reason: string) {
    || (r.decision == Approve && status == Accepted && reason == Or(Trim(r.reason), "manual review approved"))
    || (r.decision == Block && status == Blocked && reason == Or(Trim(r.reason), "manual review blocked"))
  }

  predicate ForCallback(given: SettlementCallback, c: SettlementCallback) {
    && c.tenant == given.tenant && c.transferId == given.transferId && c.spiMessageId == given.spiMessageId
    && c.status == given.status && c.code == given.code
    && c.callbackHash == Or(given.callbackHash, CallbackFingerprint(given)) && c.callbackHash != ""
  }

  ghost predicate CallsHonour(given: map<nat, Given>, calls: map<nat, Phase>) {
    forall c :: c in calls ==> c in given && Honours(given[c], calls[c])
  }

  ghost predicate AllAccounted(entries: map<string, Entry>, s: State) {
    forall id :: id in s.transfers ==>
      id in entries && Accounted(entries[id], s.transfers[id]) && HashFiled(entries[id], s.transfers[id], s.callbacks)
  }

  ghost predicate LedgerOk(w: World, l: Ledger) {
    CallsHonour(l.given, w.calls) && AllAccounted(l.entries, w.store)
  }

  // ----------------------------------------------------- calls honour what they got

  lemma {:induction false} CreateHonours(req: CreateRequest)
    ensures BeginCreate(req).Goes? ==> Honours(Asked(req), BeginCreate(req).phase)
  {
    NormalisedIs(req);
    hide Trim, RequestFingerprint, ValidRequest, Normalise, Acceptable;
  }

  lemma {:induction false} ReviewHonours(r: ReviewRequest, now: Instant)
    ensures BeginReview(r, now).Goes? ==> Honours(Reviewing(r), BeginReview(r, now).phase)
  {
    hide Trim;
  }

  lemma {:induction false} SettleHonours(c: SettlementCallback, correlation: string, now: Instant)
    ensures BeginSettle(c, correlation, now).Goes? ==> Honours(Settling(c), BeginSettle(c, correlation, now).phase)
  {
    hide CallbackFingerprint;
    if BeginSettle(c, correlation, now).Goes? {
      CompletedIs(c, correlation, now);
    }
  }

  lemma {:induction false} SubmitHonours(tenant: string, id: string, correlation: string, token: string, now: Instant)
    ensures var m := BeginSubmit(tenant, id, correlation, token, now); m.Goes? ==> Honours(Sending, m.phase)
  {
    hide Trim;
  }

  /** A call that goes on honours what it then has. */
  lemma {:induction false} AdvanceHonours(s: State, now: Instant, p: Phase, i: Input, g: Given)
    requires Fits(p, i) && Honours(g, p) && Advance(s, now, p, i).move.Goes?
    ensures Honours(Learns(g, i, now), Advance(s, now, p, i).move.phase)
  {
    hide Trim, RequestFingerprint, CallbackFingerprint, Fraud.Decide, Normalise, Acceptable;
    if p.CreateDecide? {
      NewTransferIsMadeFrom(g.req, i.dict.value, Fraud.Decide(g.req.amountCents, Trim(g.req.account), i.dict.value), i.newId, now);
      NormalisedSays(g.req);
      hide MadeFrom, StartsAs, NewTransfer, CreationEvents;
    }
  }

  lemma {:induction false} NormalisedSays(r: CreateRequest)
    ensures Normalise(r).amountCents == r.amountCents && Normalise(r).account == Trim(r.account)
  {
    hide Trim;
  }

  // --------------------------------------------------- transfers stay accounted for

  /** Only the lease fields of a transfer differ. */
  predicate SameButLease(t: Transfer, t': Transfer) {
    t' == t.(claimToken := t'.claimToken, claimedUntil := t'.claimedUntil, attempts := t'.attempts,
             lastError := t'.lastError, updatedAt := t'.updatedAt)
  }

  ghost predicate OnlyLeases(s: State, s': State) {
    && s'.callbacks == s.callbacks && s'.transfers.Keys == s.transfers.Keys
    && forall id :: id in s.transfers ==> SameButLease(s.transfers[id], s'.transfers[id])
  }

  lemma {:induction false} ReplaceLeases(s: State, t': Transfer)
    requires t'.id in s.transfers && SameButLease(s.transfers[t'.id], t')
    ensures OnlyLeases(s, s.(transfers := s.transfers[t'.id := t']))
  {
  }

  lemma {:induction false} ClaimLeases(s: State, tenant: string, id: string, token: string, until: Instant, now: Instant)
    requires Filed(s)
    ensures OnlyLeases(s, ClaimSpi(s, tenant, id, token, until, now).state)
  {
    hide Trim, OnlyLeases;
    LeavingLeases(s);
    var r := ClaimSpi(s, tenant, id, token, until, now);
    if r.result.Ok? && !r.result.value.replay {
      ReplaceLeases(s, r.result.value.transfer);
    }
  }

  lemma {:induction false} ReleaseLeases(s: State, tenant: string, id: string, token: string, lastError: string, retryAt: Instant, now: Instant)
    requires Filed(s)
    ensures OnlyLeases(s, ReleaseSpi(s, tenant, id, token, lastError, retryAt, now).state)
  {
    hide OnlyLeases;
    LeavingLeases(s);
    if Lookup(s, tenant, id).Some? {
      var released := ReleaseSubmission(s.transfers[id], token, lastError, retryAt, now);
      if released.Ok? {
        ReplaceLeases(s, released.value);
      }
    }
  }

  lemma {:induction false} LeavingLeases(s: State)
    ensures OnlyLeases(s, s)
  {
  }

  /** A phase that does not commit changes at most the lease of a transfer. */
  lemma {:induction false} OtherPhasesLease(s: State, now: Instant, p: Phase, i: Input)
    requires Filed(s) && Fits(p, i) && !Commits(Advance(s, now, p, i).move)
    ensures OnlyLeases(s, Advance(s, now, p, i).state)
  {
    hide OnlyLeases, Commits;
    LeavingLeases(s);
    if Reading(p) {
      ReadingPhase(s, now, p, i);
      hide Advance;
    } else if p.SubmitClaim? {
      ClaimLeases(s, p.tenant, p.id, p.token, p.until, now);
    } else if p.SubmitRelease? {
      ReleaseLeases(s, p.tenant, p.id, p.token, p.lastError, p.retryAt, now);
    } else {
      WritingPhase(s, now, p);
      hide Advance;
    }
  }

  lemma {:induction false} LeasesKeepAccounts(entries: map<string, Entry>, s: State, s': State)
    requires AllAccounted(entries, s) && OnlyLeases(s, s')
    ensures AllAccounted(entries, s')
  {
    hide Accounted, HashFiled;
    forall id | id in s'.transfers
      ensures id in entries && Accounted(entries[id], s'.transfers[id]) && HashFiled(entries[id], s'.transfers[id], s'.callbacks)
    {
      LeaseKeepsAccount(entries[id], s.transfers[id], s'.transfers[id], s.callbacks);
    }
  }

  lemma {:induction false} LeaseKeepsAccount(e: Entry, t: Transfer, t': Transfer, callbacks: map<string, string>)
    requires Accounted(e, t) && HashFiled(e, t, callbacks) && SameButLease(t, t')
    ensures Accounted(e, t') && HashFiled(e, t', callbacks)
  {
    hide Verdict, Trim, CallbackFingerprint, RequestFingerprint, Possible, StatusFrom, ReasonFrom;
  }

  /** One transfer written with its new entry, and at most one new hash filed. */
  lemma {:induction false} WriteKeepsAccounts(entries: map<string, Entry>, s: State, s': State, e: Entry, t: Transfer)
    requires AllAccounted(entries, s) && Accounted(e, t) && HashFiled(e, t, s'.callbacks)
    requires s'.transfers == s.transfers[t.id := t]
    requires forall k :: k in s.callbacks ==> k in s'.callbacks && s'.callbacks[k] == s.callbacks[k]
    ensures AllAccounted(entries[t.id := e], s')
  {
    hide Accounted, CallbackFingerprint;
  }

  lemma {:induction false} InsertAccounts(s: State, p: Phase, g: Given)
    requires p.CreateInsert? && Honours(g, p)
    ensures var e := Entry(g.req, g.dict, g.at, None, None, None);
            Accounted(e, p.transfer) && HashFiled(e, p.transfer, s.callbacks)
  {
    hide Trim, RequestFingerprint, CallbackFingerprint, Fraud.Decide, Acceptable, MadeFrom;
  }

  lemma {:induction false} ReviewAccounts(s: State, now: Instant, p: Phase, g: Given, e: Entry)
    requires Filed(s) && p.ReviewCommit? && Honours(g, p) && p.id in s.transfers && Accounted(e, s.transfers[p.id])
    requires Commits(Advance(s, now, p, Nothing).move)
    ensures var t := Advance(s, now, p, Nothing).move.answer.transfer;
            var e' := e.(review := Some(g.review));
            Accounted(e', t) && HashFiled(e', t, s.callbacks)
  {
    hide Trim, RequestFingerprint, CallbackFingerprint, Fraud.Decide, Acceptable;
  }

  lemma {:induction false} SubmissionAccounts(s: State, now: Instant, p: Phase, g: Given, e: Entry)
    requires Filed(s) && p.SubmitRecord? && Honours(g, p) && p.id in s.transfers && Accounted(e, s.transfers[p.id])
    requires Commits(Advance(s, now, p, Nothing).move)
    ensures var t := Advance(s, now, p, Nothing).move.answer.transfer;
            var e' := e.(answer := Some(g.message));
            Accounted(e', t) && HashFiled(e', t, s.callbacks)
  {
    hide Trim, RequestFingerprint, CallbackFingerprint, Fraud.Decide, Acceptable;
  }

  lemma {:induction false} SettlementAccounts(s: State, now: Instant, p: Phase, g: Given, e: Entry)
    requires Filed(s) && p.SettleCommit? && Honours(g, p)
    requires p.callback.transferId in s.transfers && Accounted(e, s.transfers[p.callback.transferId])
    requires Commits(Advance(s, now, p, Nothing).move)
    ensures var t := Advance(s, now, p, Nothing).move.answer.transfer;
            var e' := e.(callback := Some(g.callback));
            Accounted(e', t) && HashFiled(e', t, Advance(s, now, p, Nothing).state.callbacks)
  {
    hide Trim, RequestFingerprint, CallbackFingerprint, Fraud.Decide, Acceptable;
  }

  /** A commit other than an insert finds its transfer, and no hash on file is ever replaced. */
  lemma {:induction false} CommitFinds(s: State, now: Instant, p: Phase)
    requires p.CreateInsert? || p.SubmitRecord? || p.ReviewCommit? || p.SettleCommit?
    requires Commits(Advance(s, now, p, Nothing).move)
    ensures !p.CreateInsert? ==> Subject(p) in s.transfers
    ensures var after := Advance(s, now, p, Nothing).state.callbacks;
            forall k :: k in s.callbacks ==> k in after && after[k] == s.callbacks[k]
  {
    hide EffectiveHash, RecordSubmission, DecideReview, Settle;
  }

  lemma {:induction false} InsertKeepsAccounts(entries: map<string, Entry>, s: State, now: Instant, p: Phase, g: Given)
    requires p.CreateInsert? && Filed(s) && Honours(g, p) && AllAccounted(entries, s) && Commits(Advance(s, now, p, Nothing).move)
    ensures var e := Advance(s, now, p, Nothing); AllAccounted(Entered(entries, e.move.answer.transfer.id, g), e.state)
  {
    WritingPhase(s, now, p);
    CommitFinds(s, now, p);
    CommitAnswersItsTransfer(s, now, p);
    hide Advance, Commits, AllAccounted, Accounted, HashFiled, Enqueue, MadeFrom, StartsAs, Acceptable, Fraud.Decide, ForCallback;
    var after := Advance(s, now, p, Nothing);
    var t := after.move.answer.transfer;
    InsertAnswers(s, now, p);
    InsertAccounts(after.state, p, g);
    WriteKeepsAccounts(entries, s, after.state, Entry(g.req, g.dict, g.at, None, None, None), t);
  }

  lemma {:induction false} ReviewKeepsAccounts(entries: map<string, Entry>, s: State, now: Instant, p: Phase, g: Given)
    requires p.ReviewCommit? && Filed(s) && Honours(g, p) && AllAccounted(entries, s) && Commits(Advance(s, now, p, Nothing).move)
    ensures var e := Advance(s, now, p, Nothing); AllAccounted(Entered(entries, e.move.answer.transfer.id, g), e.state)
  {
    WritingPhase(s, now, p);
    CommitFinds(s, now, p);
    CommitAnswersItsTransfer(s, now, p);
    hide Advance, Commits, AllAccounted, Accounted, HashFiled, Enqueue, MadeFrom, StartsAs, Acceptable, Fraud.Decide, ForCallback;
    var after := Advance(s, now, p, Nothing);
    var t := after.move.answer.transfer;
    EntryOf(entries, s, t.id);
    ReviewAccounts(s, now, p, g, entries[t.id]);
    WriteKeepsAccounts(entries, s, after.state, entries[t.id].(review := Some(g.review)), t);
  }

  lemma {:induction false} SubmissionKeepsAccounts(entries: map<string, Entry>, s: State, now: Instant, p: Phase, g: Given)
    requires p.SubmitRecord? && Filed(s) && Honours(g, p) && AllAccounted(entries, s) && Commits(Advance(s, now, p, Nothing).move)
    ensures var e := Advance(s, now, p, Nothing); AllAccounted(Entered(entries, e.move.answer.transfer.id, g), e.state)
  {
    WritingPhase(s, now, p);
    CommitFinds(s, now, p);
    CommitAnswersItsTransfer(s, now, p);
    hide Advance, Commits, AllAccounted, Accounted, HashFiled, Enqueue, MadeFrom, StartsAs, Acceptable, Fraud.Decide, ForCallback;
    var after := Advance(s, now, p, Nothing);
    var t := after.move.answer.transfer;
    EntryOf(entries, s, t.id);
    SubmissionAccounts(s, now, p, g, entries[t.id]);
    WriteKeepsAccounts(entries, s, after.state, entries[t.id].(answer := Some(g.message)), t);
  }

  lemma {:induction false} SettlementKeepsAccounts(entries: map<string, Entry>, s: State, now: Instant, p: Phase, g: Given)
    requires p.SettleCommit? && Filed(s) && Honours(g, p) && AllAccounted(entries, s) && Commits(Advance(s, now, p, Nothing).move)
    ensures var e := Advance(s, now, p, Nothing); AllAccounted(Entered(entries, e.move.answer.transfer.id, g), e.state)
  {
    WritingPhase(s, now, p);
    CommitFinds(s, now, p);
    CommitAnswersItsTransfer(s, now, p);
    hide Advance, Commits, AllAccounted, Accounted, HashFiled, Enqueue, MadeFrom, StartsAs, Acceptable, Fraud.Decide, ForCallback;
    var after := Advance(s, now, p, Nothing);
    var t := after.move.answer.transfer;
    EntryOf(entries, s, t.id);
    SettlementAccounts(s, now, p, g, entries[t.id]);
    WriteKeepsAccounts(entries, s, after.state, entries[t.id].(callback := Some(g.callback)), t);
  }

  lemma {:induction false} CommitKeepsAccounts(issuer: Issuer, s: State, now: Instant, p: Phase, i: Input, g: Given, entries: map<string, Entry>)
    requires Consistent(issuer, s) && Fits(p, i) && Honours(g, p) && AllAccounted(entries, s)
    requires Commits(Advance(s, now, p, i).move)
    ensures var e := Advance(s, now, p, i); AllAccounted(Entered(entries, e.move.answer.transfer.id, g), e.state)
  {
    FiledWhenConsistent(issuer, s);
    OnlyCommitsWrite(issuer, s, now, p, i);
    hide Consistent, Filed, Advance, Commits, AllAccounted, Honours, Written, Entered;
    match p
    case CreateInsert(_, _, _, _, _) => InsertKeepsAccounts(entries, s, now, p, g);
    case ReviewCommit(_, _, _, _, _, _) => ReviewKeepsAccounts(entries, s, now, p, g);
    case SubmitRecord(_, _, _, _, _, _) => SubmissionKeepsAccounts(entries, s, now, p, g);
    case SettleCommit(_, _, _) => SettlementKeepsAccounts(entries, s, now, p, g);
    case _ =>
  }

  lemma {:induction false} InsertAnswers(s: State, now: Instant, p: Phase)
    requires p.CreateInsert? && Commits(Advance(s, now, p, Nothing).move)
    ensures Advance(s, now, p, Nothing).move.answer.transfer == p.transfer
  {
  }

  lemma {:induction false} EntryOf(entries: map<string, Entry>, s: State, id: string)
    requires AllAccounted(entries, s) && id in s.transfers
    ensures id in entries && Accounted(entries[id], s.transfers[id]) && HashFiled(entries[id], s.transfers[id], s.callbacks)
  {
  }

  // -------------------------------------------------------------------- every run

  lemma {:induction false} MovedHonours(given: map<nat, Given>, w: World, c: nat, g: Given, m: Move)
    requires CallsHonour(given, w.calls) && (m.Goes? ==> Honours(g, m.phase))
    ensures CallsHonour(given[c := g], Moved(w, c, m).calls)
  {
    hide Honours;
  }

  lemma {:induction false} ProceedKeepsLedger(issuer: Issuer, w: World, l: Ledger, a: Step)
    requires a.Proceed? && Inv(issuer, w) && Enabled(issuer, w, a) && LedgerOk(w, l)
    ensures LedgerOk(Apply(issuer, w, a), Booked(issuer, w, l, a))
  {
    var p, g := w.calls[a.call], l.given[a.call];
    assert Honours(g, p);
    FiledWhenConsistent(issuer, w.store);
    hide Inv, Consistent, Honours, Advance, Commits, AllAccounted, CallsHonour, OnlyLeases, Learns, Entered;
    var e := Advance(w.store, w.clock, p, a.input);
    if e.move.Goes? {
      AdvanceHonours(w.store, w.clock, p, a.input, g);
    }
    MovedHonours(l.given, w, a.call, Learns(g, a.input, w.clock), e.move);
    if Commits(e.move) {
      ConsistentInv(issuer, w);
      CommitKeepsAccounts(issuer, w.store, w.clock, p, a.input, g, l.entries);
    } else {
      OtherPhasesLease(w.store, w.clock, p, a.input);
      LeasesKeepAccounts(l.entries, w.store, e.state);
    }
  }

  lemma {:induction false} ConsistentInv(issuer: Issuer, w: World)
    requires Inv(issuer, w)
    ensures Consistent(issuer, w.store)
  {
  }

  lemma {:induction false} StepKeepsLedger(issuer: Issuer, w: World, l: Ledger, a: Step)
    requires Inv(issuer, w) && Enabled(issuer, w, a) && LedgerOk(w, l)
    ensures LedgerOk(Apply(issuer, w, a), Booked(issuer, w, l, a))
  {
    hide Inv, Honours, AllAccounted, CallsHonour, BeginCreate, BeginReview, BeginSettle, BeginSubmit;
    match a
    case StartCreate(c, req) =>
      CreateHonours(req);
      MovedHonours(l.given, w, c, Asked(req), BeginCreate(req));
    case StartSubmit(c, tenant, id, correlation, token) =>
      SubmitHonours(tenant, id, correlation, token, w.clock);
      MovedHonours(l.given, w, c, Sending, BeginSubmit(tenant, id, correlation, token, w.clock));
    case StartReview(c, review) =>
      ReviewHonours(review, w.clock);
      MovedHonours(l.given, w, c, Reviewing(review), BeginReview(review, w.clock));
    case StartSettle(c, callback, correlation) =>
      SettleHonours(callback, correlation, w.clock);
      MovedHonours(l.given, w, c, Settling(callback), BeginSettle(callback, correlation, w.clock));
    case Proceed(_, _) => ProceedKeepsLedger(issuer, w, l, a);
    case Tick(_) =>
    case Abandon(c) => FewerHonour(l.given, w.calls, c);
    case Deliver(records) => DeliveryKeepsAccounts(l.entries, w.store, records);
  }

  lemma {:induction false} FewerHonour(given: map<nat, Given>, calls: map<nat, Phase>, c: nat)
    requires CallsHonour(given, calls)
    ensures CallsHonour(given, calls - {c})
  {
    hide Honours;
  }

  lemma {:induction false} DeliveryKeepsAccounts(entries: map<string, Entry>, s: State, records: seq<OutboxRecord>)
    requires AllAccounted(entries, s)
    ensures AllAccounted(entries, s.(events := records))
  {
    hide Accounted, HashFiled;
  }

  lemma {:induction false} RunKeepsLedger(issuer: Issuer, w: World, l: Ledger, steps: seq<Step>)
    requires Inv(issuer, w) && LedgerOk(w, l) && Runs(issuer, w, steps)
    ensures LedgerOk(Run(issuer, w, steps), Keep(issuer, w, l, steps))
    decreases steps
  {
    hide Inv, LedgerOk, Enabled, Apply, Booked;
    if steps != [] {
      StepKeeps(issuer, w, steps[0]);
      StepKeepsLedger(issuer, w, l, steps[0]);
      RunKeepsLedger(issuer, Apply(issuer, w, steps[0]), Booked(issuer, w, l, steps[0]), steps[1..]);
    }
  }

  lemma {:induction false} ReachKeepsLedger(issuer: Issuer, steps: seq<Step>)
    requires Runs(issuer, INITIAL, steps)
    ensures LedgerOk(Reach(issuer, steps), Kept(issuer, steps))
  {
    InitialInv(issuer);
    hide Inv, Runs, Honours;
    RunKeepsLedger(issuer, INITIAL, BLANK, steps);
  }

  /** In every run each stored transfer is what its request, its directory entry, its review, the
      client's answer and the deciding callback make it, field by field, and the hash on file is
      that callback's. */
  lemma {:induction false} EveryTransferIsAccounted(issuer: Issuer, steps: seq<Step>, id: string)
    requires Runs(issuer, INITIAL, steps) && id in Reach(issuer, steps).store.transfers
    ensures var s := Reach(issuer, steps).store;
            var entries := Kept(issuer, steps).entries;
            id in entries && Accounted(entries[id], s.transfers[id]) && HashFiled(entries[id], s.transfers[id], s.callbacks)
  {
    hide Runs, Reach, Kept;
    ReachKeepsLedger(issuer, steps);
    hide Accounted, HashFiled, CallsHonour;
  }

  lemma {:induction false} EveryCallHonours(issuer: Issuer, steps: seq<Step>, k: nat)
    requires Runs(issuer, INITIAL, steps) && k in Reach(issuer, steps).calls
    ensures k in Kept(issuer, steps).given && Honours(Kept(issuer, steps).given[k], Reach(issuer, steps).calls[k])
  {
    hide Runs, Reach, Kept;
    ReachKeepsLedger(issuer, steps);
    hide Honours, AllAccounted;
  }

  /** A commit asked for by `r` either is refused or writes what `r` decides. */
  predicate FollowsDecision(s: State, now: Instant, p: Phase, r: ReviewRequest)
    requires p.ReviewCommit?
  {
    var answer := Advance(s, now, p, Nothing).move.answer;
    answer.Refused? ||
    (&& answer.Reviewed? && Trim(r.transferId) in s.transfers
     && var t, approved := s.transfers[Trim(r.transferId)], r.decision == Approve;
        && t.status == Review && (approved || r.decision == Block)
        && answer.transfer == t.(status := if approved then Accepted else Blocked, updatedAt := answer.transfer.updatedAt,
                                 decisionReason := Or(Trim(r.reason), if approved then "manual review approved" else "manual review blocked")))
  }

  /** In every run what a review call writes follows the decision and the reason of the request it
      was started with. */
  lemma {:induction false} ReviewsFollowTheirDecision(issuer: Issuer, steps: seq<Step>, k: nat)
    requires Runs(issuer, INITIAL, steps) && k in Reach(issuer, steps).calls && Reach(issuer, steps).calls[k].ReviewCommit?
    ensures k in Kept(issuer, steps).given && Kept(issuer, steps).given[k].Reviewing?
    ensures var w := Reach(issuer, steps); FollowsDecision(w.store, w.clock, w.calls[k], Kept(issuer, steps).given[k].review)
  {
    EveryCallHonours(issuer, steps, k);
    hide Runs, Reach, Kept, FollowsDecision;
    var w := Reach(issuer, steps);
    ReviewWrites(w.store, w.clock, w.calls[k], Kept(issuer, steps).given[k]);
  }

  lemma {:induction false} ReviewWrites(s: State, now: Instant, p: Phase, g: Given)
    requires p.ReviewCommit? && Honours(g, p)
    ensures FollowsDecision(s, now, p, g.review)
  {
    hide Trim;
  }

  /** Whether two callbacks bring the same hash, or have the same fingerprint where they bring none. */
  predicate SameHash(c: SettlementCallback, d: SettlementCallback) {
    Or(c.callbackHash, CallbackFingerprint(c)) == Or(d.callbackHash, CallbackFingerprint(d))
  }

  /** `p`, which reports `d`, comes after `c` decided the transfer: it replays exactly when both
      come to the same hash. */
  predicate Repeats(s: State, now: Instant, p: Phase, c: SettlementCallback, d: SettlementCallback)
    requires p.SettleCommit?
  {
    && d.transferId in s.transfers
    && Advance(s, now, p, Nothing)
       == Effect(s, Ends(if SameHash(c, d) then Recorded(s.transfers[d.transferId], true) else Refused(Conflict)))
  }

  /** In every run a callback for a transfer that another one has decided replays exactly when both
      come to the same hash: for two that bring no hash, when status and code are the same.  It
      never changes anything, whatever happened since it was prepared. */
  lemma {:induction false} LaterCallbacksRepeatOrConflict(issuer: Issuer, steps: seq<Step>, k: nat)
    requires Runs(issuer, INITIAL, steps) && k in Reach(issuer, steps).calls && Reach(issuer, steps).calls[k].SettleCommit?
    ensures k in Kept(issuer, steps).given && Kept(issuer, steps).given[k].Settling?
    ensures var w, l := Reach(issuer, steps), Kept(issuer, steps);
            var d := l.given[k].callback;
            && d.transferId in l.entries
            && (l.entries[d.transferId].callback.Some? ==>
                  var c := l.entries[d.transferId].callback.value;
                  && Repeats(w.store, w.clock, w.calls[k], c, d)
                  && (NoNuls(c) && c.callbackHash == d.callbackHash == "" ==>
                        (SameHash(c, d) <==> d.status == c.status && Trim(d.code) == Trim(c.code))))
  {
    EveryCallHonours(issuer, steps, k);
    hide Runs, Reach, Kept, Repeats, SameHash, NoNuls, Trim, CallbackFingerprint;
    var w, l := Reach(issuer, steps), Kept(issuer, steps);
    var d := l.given[k].callback;
    SettlesKnownTransfer(issuer, steps, k);
    EveryTransferIsAccounted(issuer, steps, d.transferId);
    hide Accounted, HashFiled, Honours;
    if l.entries[d.transferId].callback.Some? {
      LaterCommit(w.store, w.clock, w.calls[k], l.given[k], l.entries[d.transferId]);
      SameSayings(w.store, l.given[k], w.calls[k], l.entries[d.transferId]);
    }
  }

  lemma {:induction false} SettlesKnownTransfer(issuer: Issuer, steps: seq<Step>, k: nat)
    requires Runs(issuer, INITIAL, steps) && k in Reach(issuer, steps).calls && Reach(issuer, steps).calls[k].SettleCommit?
    ensures var s, c := Reach(issuer, steps).store, Reach(issuer, steps).calls[k].callback;
            Filed(s) && Known(s, c.tenant, c.transferId) && s.transfers[c.transferId].spiMessageId == c.spiMessageId
  {
    hide Runs, Reach;
    ReachKeeps(issuer, steps);
    var w := Reach(issuer, steps);
    assert PhaseOk(issuer, w.store, w.hist, w.calls[k]);
    FiledWhenConsistent(issuer, w.store);
  }

  /** The transfer a settlement is about, as its entry has it. */
  ghost predicate About(s: State, p: Phase, g: Given, e: Entry) {
    && p.SettleCommit? && Honours(g, p) && Filed(s) && Known(s, p.callback.tenant, p.callback.transferId)
    && s.transfers[p.callback.transferId].spiMessageId == p.callback.spiMessageId
    && Accounted(e, s.transfers[p.callback.transferId]) && HashFiled(e, s.transfers[p.callback.transferId], s.callbacks)
  }

  lemma {:induction false} LaterCommit(s: State, now: Instant, p: Phase, g: Given, e: Entry)
    requires About(s, p, g, e) && e.callback.Some?
    ensures Repeats(s, now, p, e.callback.value, g.callback)
  {
    hide CallbackFingerprint, Accounted;
  }

  lemma {:induction false} SameSayings(s: State, g: Given, p: Phase, e: Entry)
    requires About(s, p, g, e) && e.callback.Some?
    ensures var c, d := e.callback.value, g.callback;
            NoNuls(c) && c.callbackHash == d.callbackHash == "" ==>
              (SameHash(c, d) <==> d.status == c.status && Trim(d.code) == Trim(c.code))
  {
    var c, d := e.callback.value, g.callback;
    hide CallbackFingerprint, RequestFingerprint, Trim, Fraud.Decide, NoNuls, MadeFrom, Acceptable;
    if NoNuls(c) && c.callbackHash == d.callbackHash == "" {
      SameSayingsSameHash(c, d);
    }
  }

  /** The same from the start of a call: a callback that arrives after the decision. */
  lemma {:induction false} DecidedTransfersAnswerByTheirCallback(issuer: Issuer, steps: seq<Step>, d: SettlementCallback, newCorrelation: string, clock: Clock)
    requires Runs(issuer, INITIAL, steps) && d.transferId in Reach(issuer, steps).store.transfers
    requires var t := Reach(issuer, steps).store.transfers[d.transferId];
             d.tenant == t.tenant != "" && d.spiMessageId == t.spiMessageId != "" && d.transferId != "" && Decisive(d)
    ensures var s, e := Reach(issuer, steps).store, Kept(issuer, steps).entries;
            && d.transferId in e
            && (e[d.transferId].callback.Some? ==>
                  Alone(s, clock, 1, BeginSettle(d, newCorrelation, clock(0)), Nothing)
                  == Finished(s, if SameHash(e[d.transferId].callback.value, d) then Recorded(s.transfers[d.transferId], true)
                                 else Refused(Conflict)))
  {
    hide Runs, Reach, Kept, CallbackFingerprint, Accounted;
    EveryTransferIsAccounted(issuer, steps, d.transferId);
    ReachKeeps(issuer, steps);
    var s := Reach(issuer, steps).store;
    FiledWhenConsistent(issuer, s);
    hide Inv, Consistent, Alone, BeginSettle;
    if Kept(issuer, steps).entries[d.transferId].callback.Some? {
      SettlementRepeats(s, d, newCorrelation, clock, s.transfers[d.transferId]);
    }
  }
}
