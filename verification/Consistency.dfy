/** What every store step keeps, as a property of one store state, and how a
    later state extends an earlier one. */
module Consistency {
  import opened Wrappers
  import opened Text
  import opened Rail
  import opened Events
  import opened Outbox
  import opened Store
  import opened Lifecycle
  import Int64
  import Fraud

  /** The transfer each SPI message id was issued for.  Any function will do: it
      says that message ids are distinct across transfers. */
  type Issuer = string -> string

  predicate Decided(t: Transfer) {
    t.status.Settled? || t.status.Rejected?
  }

  function IdemKey(t: Transfer): string {
    StoreKey(t.tenant, t.idempotencyKey)
  }

  function CallbackKey(t: Transfer): string {
    StoreKey(t.tenant, t.spiMessageId)
  }

  /** Whether the transfer's risk signal and its surcharges add up within 64 bits. */
  predicate ScoreFits(t: Transfer) {
    t.receiverRisk + Fraud.Surcharge(t.amountCents, t.receiverRisk, Fraud.SELF_RULE in t.fraudRules) <= Int64.INT64_MAX
  }

  /** A receiver whose risk signal is 80 or more: blocked exactly when the score did not
      overflow, and never under review. */
  predicate RiskJudged(t: Transfer) {
    80 <= t.receiverRisk <= Int64.INT64_MAX ==> (t.status.Blocked? <==> ScoreFits(t)) && !t.status.Review?
  }

  predicate Sound(issuer: Issuer, t: Transfer) {
    && WellFormed(t)
    && t.id != "" && t.requestHash != "" && ColonFree(t.tenant)
    && (HasSpiIds(t.status) ==> issuer(t.spiMessageId) == t.id)
    && RiskJudged(t)
  }

  type Transfers = map<string, Transfer>

  ghost predicate AllSound(issuer: Issuer, ts: Transfers) {
    forall id :: id in ts ==> ts[id].id == id && Sound(issuer, ts[id])
  }

  /** The idempotency index is a bijection with the stored transfers. */
  ghost predicate Indexed(ts: Transfers, index: map<string, string>) {
    && (forall id :: id in ts ==> IdemKey(ts[id]) in index && index[IdemKey(ts[id])] == id)
    && (forall k :: k in index ==> index[k] in ts && IdemKey(ts[index[k]]) == k)
  }

  ghost predicate DecidedUnder(ts: Transfers, k: string) {
    exists id :: id in ts && Decided(ts[id]) && CallbackKey(ts[id]) == k
  }

  /** A callback entry exists exactly for the settled and rejected transfers. */
  ghost predicate CallbacksMatch(ts: Transfers, callbacks: map<string, string>) {
    && (forall id :: id in ts && Decided(ts[id]) ==> CallbackKey(ts[id]) in callbacks)
    && (forall k :: k in callbacks ==> DecidedUnder(ts, k))
  }

  /** The events of `id` form a legal word that leads to its status, and its
      audit records are exactly the ones the word implies. */
  ghost predicate Journalled(ts: Transfers, events: seq<OutboxRecord>, audit: seq<AuditRecord>, id: string) {
    if id in ts then Replay(FRESH, KindsOf(events, id)) == Trace(At(ts[id].status), ActionsOf(audit, id))
    else KindsOf(events, id) == [] && ActionsOf(audit, id) == []
  }

  ghost predicate Consistent(issuer: Issuer, s: State) {
    && AllSound(issuer, s.transfers)
    && Indexed(s.transfers, s.idempotency)
    && CallbacksMatch(s.transfers, s.callbacks)
    && Numbered(s.events) && s.nextSeq == |s.events|
    && (forall id :: Journalled(s.transfers, s.events, s.audit, id))
  }

  lemma EmptyConsistent(issuer: Issuer)
    ensures Consistent(issuer, EMPTY)
  {
  }

  // ------------------------------------------------- one lemma per kind of change

  /** Which transfers may replace one another under the same id. */
  predicate Replaces(issuer: Issuer, ts: Transfers, t': Transfer) {
    t'.id in ts && Core(ts[t'.id]) == Core(t') && Sound(issuer, t')
  }

  lemma ReplaceKeepsIndex(issuer: Issuer, ts: Transfers, index: map<string, string>, t': Transfer)
    requires AllSound(issuer, ts) && Indexed(ts, index) && Replaces(issuer, ts, t')
    ensures AllSound(issuer, ts[t'.id := t']) && Indexed(ts[t'.id := t'], index)
  {
    hide Sound;
    assert IdemKey(t') == IdemKey(Core(t')) == IdemKey(ts[t'.id]);
  }

  lemma DecidedElsewhere(ts: Transfers, t': Transfer, k: string)
    requires DecidedUnder(ts, k)
    requires t'.id in ts ==> !Decided(ts[t'.id])
    ensures DecidedUnder(ts[t'.id := t'], k)
  {
    var id :| id in ts && Decided(ts[id]) && CallbackKey(ts[id]) == k;
    assert ts[t'.id := t'][id] == ts[id];
  }

  /** Writing an undecided transfer over an undecided one, or over none. */
  lemma WriteKeepsCallbacks(ts: Transfers, callbacks: map<string, string>, t': Transfer)
    requires CallbacksMatch(ts, callbacks)
    requires t'.id in ts ==> !Decided(ts[t'.id])
    requires !Decided(t')
    ensures CallbacksMatch(ts[t'.id := t'], callbacks)
  {
    var after := ts[t'.id := t'];
    forall k | k in callbacks
      ensures DecidedUnder(after, k)
    {
      DecidedElsewhere(ts, t', k);
    }
  }

  lemma QuietChangeKeepsJournal(ts: Transfers, events: seq<OutboxRecord>, audit: seq<AuditRecord>, t': Transfer, id: string)
    requires t'.id in ts && t'.status == ts[t'.id].status && Journalled(ts, events, audit, id)
    ensures Journalled(ts[t'.id := t'], events, audit, id)
  {
  }

  /** A claim or a release: same status, nothing journalled. */
  lemma QuietChangeKeeps(issuer: Issuer, s: State, t': Transfer)
    requires Consistent(issuer, s) && Replaces(issuer, s.transfers, t')
    requires t'.status == s.transfers[t'.id].status && !Decided(t')
    ensures Consistent(issuer, s.(transfers := s.transfers[t'.id := t']))
  {
    hide Journalled, AllSound, Indexed, CallbacksMatch;
    ReplaceKeepsIndex(issuer, s.transfers, s.idempotency, t');
    WriteKeepsCallbacks(s.transfers, s.callbacks, t');
    var after := s.transfers[t'.id := t'];
    forall id
      ensures Journalled(after, s.events, s.audit, id)
    {
      QuietChangeKeepsJournal(s.transfers, s.events, s.audit, t', id);
    }
  }

  /** Events and audit record that explain a change from `from` to `to`. */
  ghost predicate Explains(id: string, from: Status, to: Status, events: seq<Event>, audit: AuditRecord) {
    && AllFor(events, id) && audit.transferId == id
    && (forall actions :: Replay(Trace(At(from), actions), Kinds(events)) == Trace(At(to), actions + [audit.action]))
  }

  lemma CommitKeepsJournal(s: State, t': Transfer, events: seq<Event>, audit: AuditRecord, x: string)
    requires t'.id in s.transfers && Explains(t'.id, s.transfers[t'.id].status, t'.status, events, audit)
    requires Journalled(s.transfers, s.events, s.audit, x)
    ensures Journalled(s.transfers[t'.id := t'], Enqueue(s.events, s.nextSeq, events), s.audit + [audit], x)
  {
    KindsOfEnqueue(s.events, s.nextSeq, events, t'.id, x);
    ActionsOfAppend(s.audit, audit, x);
    if x == t'.id {
      ReplayConcat(FRESH, KindsOf(s.events, x), Kinds(events));
    }
  }

  lemma EnqueueKeepsNumbering(records: seq<OutboxRecord>, nextSeq: int, events: seq<Event>)
    requires Numbered(records) && nextSeq == |records|
    ensures var all := Enqueue(records, nextSeq, events); Numbered(all) && nextSeq + |events| == |all|
  {
  }

  /** A journalled change that leaves the transfer undecided. */
  lemma CommitKeeps(issuer: Issuer, s: State, t': Transfer, events: seq<Event>, audit: AuditRecord)
    requires Consistent(issuer, s) && Replaces(issuer, s.transfers, t')
    requires !Decided(s.transfers[t'.id]) && !Decided(t')
    requires Explains(t'.id, s.transfers[t'.id].status, t'.status, events, audit)
    ensures Consistent(issuer, Commit(s, t', events, [audit]))
  {
    hide Journalled, AllSound, Indexed, CallbacksMatch, Explains;
    ReplaceKeepsIndex(issuer, s.transfers, s.idempotency, t');
    WriteKeepsCallbacks(s.transfers, s.callbacks, t');
    EnqueueKeepsNumbering(s.events, s.nextSeq, events);
    var after := Commit(s, t', events, [audit]);
    forall id
      ensures Journalled(after.transfers, after.events, after.audit, id)
    {
      CommitKeepsJournal(s, t', events, audit, id);
    }
  }

  lemma SettleKeepsCallbacks(ts: Transfers, callbacks: map<string, string>, t': Transfer, hash: string)
    requires CallbacksMatch(ts, callbacks) && t'.id in ts && !Decided(ts[t'.id]) && Decided(t')
    ensures CallbacksMatch(ts[t'.id := t'], callbacks[CallbackKey(t') := hash])
  {
    var after, filed := ts[t'.id := t'], callbacks[CallbackKey(t') := hash];
    forall k | k in filed
      ensures DecidedUnder(after, k)
    {
      if k == CallbackKey(t') {
        assert after[t'.id] == t';
      } else {
        DecidedElsewhere(ts, t', k);
      }
    }
  }

  /** A settlement also files its callback hash. */
  lemma SettleKeeps(issuer: Issuer, s: State, t': Transfer, hash: string, events: seq<Event>, audit: AuditRecord)
    requires Consistent(issuer, s) && Replaces(issuer, s.transfers, t')
    requires !Decided(s.transfers[t'.id]) && Decided(t')
    requires Explains(t'.id, s.transfers[t'.id].status, t'.status, events, audit)
    ensures Consistent(issuer, Commit(s, t', events, [audit]).(callbacks := s.callbacks[CallbackKey(t') := hash]))
  {
    hide Journalled, AllSound, Indexed, CallbacksMatch, Explains;
    ReplaceKeepsIndex(issuer, s.transfers, s.idempotency, t');
    SettleKeepsCallbacks(s.transfers, s.callbacks, t', hash);
    EnqueueKeepsNumbering(s.events, s.nextSeq, events);
    var after := Commit(s, t', events, [audit]);
    forall id
      ensures Journalled(after.transfers, after.events, after.audit, id)
    {
      CommitKeepsJournal(s, t', events, audit, id);
    }
  }

  lemma InsertKeepsJournal(s: State, t: Transfer, events: seq<Event>, audit: AuditRecord, x: string)
    requires t.id !in s.transfers && Journalled(s.transfers, s.events, s.audit, x)
    requires AllFor(events, t.id) && Kinds(events) == CreationKinds(t.status)
    requires t.status.Accepted? || t.status.Review? || t.status.Blocked?
    requires audit.transferId == t.id && audit.action.TransferDecided?
    ensures Journalled(s.transfers[t.id := t], Enqueue(s.events, s.nextSeq, events), s.audit + [audit], x)
  {
    KindsOfEnqueue(s.events, s.nextSeq, events, t.id, x);
    ActionsOfAppend(s.audit, audit, x);
    if x == t.id {
      CreationWord(t.status);
      assert [] + Kinds(events) == Kinds(events);
      assert [] + [TransferDecided] == [TransferDecided];
    }
  }

  lemma InsertKeepsIndex(issuer: Issuer, ts: Transfers, index: map<string, string>, t: Transfer)
    requires AllSound(issuer, ts) && Indexed(ts, index) && Sound(issuer, t)
    requires t.id !in ts && IdemKey(t) !in index
    ensures AllSound(issuer, ts[t.id := t]) && Indexed(ts[t.id := t], index[IdemKey(t) := t.id])
  {
    hide Sound, IdemKey;
  }

  lemma InsertKeeps(issuer: Issuer, s: State, t: Transfer, events: seq<Event>, audit: AuditRecord)
    requires Consistent(issuer, s) && Sound(issuer, t)
    requires t.id !in s.transfers && IdemKey(t) !in s.idempotency
    requires AllFor(events, t.id) && Kinds(events) == CreationKinds(t.status)
    requires t.status.Accepted? || t.status.Review? || t.status.Blocked?
    requires audit.transferId == t.id && audit.action.TransferDecided?
    ensures InsertTransfer(s, t, events, [audit]).result.Ok?
    ensures Consistent(issuer, InsertTransfer(s, t, events, [audit]).state)
  {
    hide Journalled, AllSound, Indexed, CallbacksMatch;
    InsertKeepsIndex(issuer, s.transfers, s.idempotency, t);
    WriteKeepsCallbacks(s.transfers, s.callbacks, t);
    EnqueueKeepsNumbering(s.events, s.nextSeq, events);
    var after := Commit(s, t, events, [audit]);
    forall id
      ensures Journalled(after.transfers, after.events, after.audit, id)
    {
      InsertKeepsJournal(s, t, events, audit, id);
    }
  }

  lemma DeliveryKeepsJournal(s: State, records: seq<OutboxRecord>, id: string)
    requires |records| == |s.events| && forall i :: 0 <= i < |records| ==> records[i].event == s.events[i].event
    requires Journalled(s.transfers, s.events, s.audit, id)
    ensures Journalled(s.transfers, records, s.audit, id)
  {
    KindsOfSameEvents(s.events, records, id);
  }

  // --------------------------------------------------------------- history

  /** A later store state: transfers only evolve, index and callback entries
      stay, stored events never change, and the audit log only grows. */
  ghost predicate Extends(s: State, s': State) {
    && (forall id :: id in s.transfers ==> id in s'.transfers && Evolves(s.transfers[id], s'.transfers[id]))
    && (forall k :: k in s.idempotency ==> k in s'.idempotency && s'.idempotency[k] == s.idempotency[k])
    && (forall k :: k in s.callbacks ==> k in s'.callbacks && s'.callbacks[k] == s.callbacks[k])
    && |s.events| <= |s'.events|
    && (forall i :: 0 <= i < |s.events| ==>
          s'.events[i].event == s.events[i].event && s'.events[i].sequence == s.events[i].sequence)
    && s.audit <= s'.audit
  }

  lemma ExtendsTransitive(a: State, b: State, c: State)
    requires Extends(a, b) && Extends(b, c)
    ensures Extends(a, c)
  {
    forall id | id in a.transfers
      ensures id in c.transfers && Evolves(a.transfers[id], c.transfers[id])
    {
      EvolvesTransitive(a.transfers[id], b.transfers[id], c.transfers[id]);
    }
  }
}
