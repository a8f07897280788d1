/** The in-memory store.  `State` and the functions on it say what each call
    does as one atomic step; `MemoryStore` is the object that does it in place,
    with every call held under its mutex. */
module Store {
  import opened Wrappers
  import opened Text
  import opened Instants
  import opened Rail
  import opened Events
  import opened Outbox

  datatype State = State(
    transfers: map<string, Transfer>, idempotency: map<string, string>, callbacks: map<string, string>,
    events: seq<OutboxRecord>, audit: seq<AuditRecord>, nextSeq: int)

  const EMPTY: State := State(map[], map[], map[], [], [], 0)

  /** A step's new state and what the caller is told. */
  datatype Reply<+T> = Reply(state: State, result: Result<T, Error>)

  /** A transfer, and whether the call found its work already done. */
  datatype Outcome = Outcome(transfer: Transfer, replay: bool)

  function Lookup(s: State, tenant: string, id: string): Option<Transfer> {
    if id in s.transfers && s.transfers[id].tenant == tenant then Some(s.transfers[id]) else None
  }

  function FindByIdempotency(s: State, tenant: string, key: string): Option<Transfer> {
    var k := StoreKey(tenant, key);
    if k in s.idempotency && s.idempotency[k] in s.transfers then Some(s.transfers[s.idempotency[k]]) else None
  }

  function GetTransfer(s: State, tenant: string, id: string): Result<Transfer, Error> {
    match Lookup(s, tenant, id)
    case None => Err(NotFound)
    case Some(t) => Ok(t)
  }

  /** Writes a transfer together with the events and audit records that explain it. */
  function Commit(s: State, t: Transfer, events: seq<Event>, audit: seq<AuditRecord>): State {
    s.(transfers := s.transfers[t.id := t],
       events := Enqueue(s.events, s.nextSeq, events),
       nextSeq := s.nextSeq + |events|,
       audit := s.audit + audit)
  }

  function InsertTransfer(s: State, t: Transfer, events: seq<Event>, audit: seq<AuditRecord>): Reply<()> {
    var k := StoreKey(t.tenant, t.idempotencyKey);
    if k in s.idempotency && s.idempotency[k] != t.id then Reply(s, Err(Conflict))
    else if t.id in s.transfers then Reply(s, Err(Conflict))
    else Reply(Commit(s, t, events, audit).(idempotency := s.idempotency[k := t.id]), Ok(()))
  }

  function ClaimSpi(s: State, tenant: string, id: string, token: string, until: Instant, now: Instant): Reply<Outcome> {
    match Lookup(s, tenant, id)
    case None => Reply(s, Err(NotFound))
    case Some(t) =>
      if t.status.Approved? && t.spiMessageId != "" then Reply(s, Ok(Outcome(t, true)))
      else match ClaimSubmission(t, token, until, now)
        case Err(e) => Reply(s, Err(e))
        case Ok(t') => Reply(s.(transfers := s.transfers[t'.id := t']), Ok(Outcome(t', false)))
  }

  function RecordSpi(s: State, tenant: string, id: string, token: string, message: SpiMessage,
                     events: seq<Event>, audit: AuditRecord): Reply<Outcome>
  {
    match Lookup(s, tenant, id)
    case None => Reply(s, Err(NotFound))
    case Some(t) =>
      if t.status.Approved? && t.spiMessageId == message.messageId then Reply(s, Ok(Outcome(t, true)))
      else match RecordSubmission(t, token, message)
        case Err(e) => Reply(s, Err(e))
        case Ok(t') => Reply(Commit(s, t', events, [audit]), Ok(Outcome(t', false)))
  }

  function ReleaseSpi(s: State, tenant: string, id: string, token: string, lastError: string,
                      retryAt: Instant, now: Instant): Reply<()>
  {
    match Lookup(s, tenant, id)
    case None => Reply(s, Err(NotFound))
    case Some(t) =>
      if t.status.Approved? && t.spiMessageId != "" then Reply(s, Ok(()))
      else match ReleaseSubmission(t, token, lastError, retryAt, now)
        case Err(e) => Reply(s, Err(e))
        case Ok(t') => Reply(s.(transfers := s.transfers[t'.id := t']), Ok(()))
  }

  function RecordReview(s: State, tenant: string, id: string, status: Status, reason: string,
                        events: seq<Event>, audit: AuditRecord): Reply<Transfer>
  {
    match Lookup(s, tenant, id)
    case None => Reply(s, Err(NotFound))
    case Some(t) =>
      match DecideReview(t, status, reason, audit.createdAt)
      case Err(e) => Reply(s, Err(e))
      case Ok(t') => Reply(Commit(s, t', events, [audit]), Ok(t'))
  }

  function EffectiveHash(c: SettlementCallback): string {
    if c.callbackHash == "" then CallbackFingerprint(c) else c.callbackHash
  }

  function UpdateSettlement(s: State, tenant: string, id: string, c: SettlementCallback,
                            events: seq<Event>, audit: AuditRecord): Reply<Outcome>
  {
    match Lookup(s, tenant, id)
    case None => Reply(s, Err(NotFound))
    case Some(t) =>
      var k := StoreKey(tenant, c.spiMessageId);
      if k in s.callbacks then
        if s.callbacks[k] == EffectiveHash(c) then Reply(s, Ok(Outcome(t, true))) else Reply(s, Err(Conflict))
      else match Settle(t, c)
        case Err(e) => Reply(s, Err(e))
        case Ok(t') =>
          Reply(Commit(s, t', events, [audit]).(callbacks := s.callbacks[k := EffectiveHash(c)]), Ok(Outcome(t', false)))
  }

  /** Waiting for SPI: accepted, without a message id, and not under a claim. */
  predicate Pending(t: Transfer, now: Instant) {
    && t.status.Accepted? && t.spiMessageId == ""
    && (t.claimedUntil.None? || t.claimedUntil.value <= now)
  }

  /** Ids under which pending transfers are filed. */
  function PendingIds(s: State, now: Instant): set<string> {
    set id | id in s.transfers && Pending(s.transfers[id], now)
  }

  /** A legal answer to `PendingSPISubmissions`: `min(limit, all)` distinct
      pending transfers, oldest first, none older left behind.  Ties are broken
      either way, because the source sorts a map's values unstably. */
  ghost predicate OldestPending(s: State, now: Instant, limit: nat, batch: seq<Transfer>) {
    && |batch| == (if |PendingIds(s, now)| < limit then |PendingIds(s, now)| else limit)
    && (forall i :: 0 <= i < |batch| ==>
          batch[i].id in PendingIds(s, now) && s.transfers[batch[i].id] == batch[i])
    && (forall i, j :: 0 <= i < j < |batch| ==> batch[i].id != batch[j].id && batch[i].createdAt <= batch[j].createdAt)
    && (forall i, id :: 0 <= i < |batch| && id in PendingIds(s, now) - Ids(batch) ==>
          batch[i].createdAt <= s.transfers[id].createdAt)
  }

  /** Every transfer is filed under its own id. */
  predicate Filed(s: State) {
    forall id :: id in s.transfers ==> s.transfers[id].id == id
  }

  class MemoryStore {
    var transfers: map<string, Transfer>
    var idempotency: map<string, string>
    var callbacks: map<string, string>
    var events: seq<OutboxRecord>
    var audit: seq<AuditRecord>
    var nextSeq: int

    ghost function View(): State
      reads this
    {
      State(transfers, idempotency, callbacks, events, audit, nextSeq)
    }

    ghost predicate Valid()
      reads this
    {
      Numbered(events) && nextSeq == |events| && Filed(View())
    }

    constructor ()
      ensures Valid() && View() == EMPTY
    {
      transfers, idempotency, callbacks := map[], map[], map[];
      events, audit, nextSeq := [], [], 0;
    }

    method Find(tenant: string, key: string) returns (found: Option<Transfer>)
      ensures found == FindByIdempotency(View(), tenant, key)
    {
      if tenant + ":" + key !in idempotency {
        return None;
      }
      var id := idempotency[tenant + ":" + key];
      found := if id in transfers then Some(transfers[id]) else None;
    }

    method Get(tenant: string, id: string) returns (r: Result<Transfer, Error>)
      ensures r == GetTransfer(View(), tenant, id)
    {
      if id !in transfers || transfers[id].tenant != tenant {
        return Err(NotFound);
      }
      r := Ok(transfers[id]);
    }

    method AppendEvents(outbox: seq<Event>)
      requires Numbered(events) && nextSeq == |events|
      modifies this`events, this`nextSeq
      ensures events == Enqueue(old(events), old(nextSeq), outbox)
      ensures nextSeq == old(nextSeq) + |outbox|
      ensures Numbered(events) && nextSeq == |events|
    {
      var i := 0;
      while i < |outbox|
        invariant 0 <= i <= |outbox|
        invariant nextSeq == old(nextSeq) + i
        invariant events == Enqueue(old(events), old(nextSeq), outbox[..i])
      {
        nextSeq := nextSeq + 1;
        events := events + [NewRecord(nextSeq, outbox[i])];
        i := i + 1;
      }
      assert outbox[..i] == outbox;
    }

    method Insert(transfer: Transfer, outbox: seq<Event>, records: seq<AuditRecord>) returns (r: Result<(), Error>)
      requires Valid()
      modifies this
      ensures Valid()
      ensures Reply(View(), r) == InsertTransfer(old(View()), transfer, outbox, records)
    {
      hide Enqueue, Numbered;
      var idem := transfer.tenant + ":" + transfer.idempotencyKey;
      if idem in idempotency && idempotency[idem] != transfer.id {
        return Err(Conflict);
      }
      if transfer.id in transfers {
        return Err(Conflict);
      }
      transfers := transfers[transfer.id := transfer];
      idempotency := idempotency[idem := transfer.id];
      AppendEvents(outbox);
      audit := audit + records;
      r := Ok(());
    }

    method ClaimSubmission(tenant: string, id: string, token: string, until: Instant, now: Instant)
      returns (r: Result<Outcome, Error>)
      requires Valid()
      modifies this`transfers
      ensures Valid()
      ensures Reply(View(), r) == ClaimSpi(old(View()), tenant, id, token, until, now)
    {
      if id !in transfers || transfers[id].tenant != tenant {
        return Err(NotFound);
      }
      var transfer := transfers[id];
      if transfer.status.Approved? && transfer.spiMessageId != "" {
        return Ok(Outcome(transfer, true));
      }
      var claimed := Rail.ClaimSubmission(transfer, token, until, now);
      if claimed.Err? {
        return Err(claimed.error);
      }
      transfers := transfers[claimed.value.id := claimed.value];
      r := Ok(Outcome(claimed.value, false));
    }

    method RecordSubmission(tenant: string, id: string, token: string, message: SpiMessage,
                            outbox: seq<Event>, record: AuditRecord) returns (r: Result<Outcome, Error>)
      requires Valid()
      modifies this
      ensures Valid()
      ensures Reply(View(), r) == RecordSpi(old(View()), tenant, id, token, message, outbox, record)
    {
      hide Enqueue, Numbered;
      if id !in transfers || transfers[id].tenant != tenant {
        return Err(NotFound);
      }
      var transfer := transfers[id];
      if transfer.status.Approved? && transfer.spiMessageId == message.messageId {
        return Ok(Outcome(transfer, true));
      }
      var recorded := Rail.RecordSubmission(transfer, token, message);
      if recorded.Err? {
        return Err(recorded.error);
      }
      transfers := transfers[recorded.value.id := recorded.value];
      AppendEvents(outbox);
      audit := audit + [record];
      r := Ok(Outcome(recorded.value, false));
    }

    method ReleaseSubmission(tenant: string, id: string, token: string, lastError: string, retryAt: Instant, now: Instant)
      returns (r: Result<(), Error>)
      requires Valid()
      modifies this`transfers
      ensures Valid()
      ensures Reply(View(), r) == ReleaseSpi(old(View()), tenant, id, token, lastError, retryAt, now)
    {
      if id !in transfers || transfers[id].tenant != tenant {
        return Err(NotFound);
      }
      var transfer := transfers[id];
      if transfer.status.Approved? && transfer.spiMessageId != "" {
        return Ok(());
      }
      var released := Rail.ReleaseSubmission(transfer, token, lastError, retryAt, now);
      if released.Err? {
        return Err(released.error);
      }
      transfers := transfers[released.value.id := released.value];
      r := Ok(());
    }

    method RecordReviewDecision(tenant: string, id: string, status: Status, reason: string,
                                outbox: seq<Event>, record: AuditRecord) returns (r: Result<Transfer, Error>)
      requires Valid()
      modifies this
      ensures Valid()
      ensures Reply(View(), r) == RecordReview(old(View()), tenant, id, status, reason, outbox, record)
    {
      hide Enqueue, Numbered;
      if id !in transfers || transfers[id].tenant != tenant {
        return Err(NotFound);
      }
      r := DecideReview(transfers[id], status, reason, record.createdAt);
      if r.Err? {
        return;
      }
      transfers := transfers[r.value.id := r.value];
      AppendEvents(outbox);
      audit := audit + [record];
    }

    method Settlement(tenant: string, id: string, callback: SettlementCallback,
                      outbox: seq<Event>, record: AuditRecord) returns (r: Result<Outcome, Error>)
      requires Valid()
      modifies this
      ensures Valid()
      ensures Reply(View(), r) == UpdateSettlement(old(View()), tenant, id, callback, outbox, record)
    {
      hide Enqueue, CallbackFingerprint, Numbered;
      if id !in transfers || transfers[id].tenant != tenant {
        return Err(NotFound);
      }
      var hash := callback.callbackHash;
      if hash == "" {
        hash := CallbackFingerprint(callback);
      }
      var key := tenant + ":" + callback.spiMessageId;
      if key in callbacks {
        if callbacks[key] == hash {
          return Ok(Outcome(transfers[id], true));
        }
        return Err(Conflict);
      }
      var settled := Settle(transfers[id], callback);
      if settled.Err? {
        return Err(settled.error);
      }
      transfers := transfers[settled.value.id := settled.value];
      callbacks := callbacks[key := hash];
      AppendEvents(outbox);
      audit := audit + [record];
      r := Ok(Outcome(settled.value, false));
    }

    /** Reads the first `limit` eligible records. */
    method PendingOutbox(limit: int, now: Instant) returns (records: seq<OutboxRecord>)
      ensures records == Scan(events, now, EffectiveLimit(limit))
    {
      var n := EffectiveLimit(limit);
      records := [];
      var i := 0;
      while i < |events|
        invariant 0 <= i <= |events| && |records| < n
        invariant Scan(events, now, n) == records + Scan(events[i..], now, n - |records|)
      {
        assert events[i..][0] == events[i] && events[i..][1..] == events[i + 1..];
        i := i + 1;
        if events[i - 1].published || events[i - 1].availableAt > now {
          continue;
        }
        if events[i - 1].claimedUntil.Some? && events[i - 1].claimedUntil.value > now {
          continue;
        }
        records := records + [events[i - 1]];
        if |records| == n {
          break;
        }
      }
    }

    /** Stamps in place what `PendingOutbox` would read, and returns it stamped.
        `checkedAt` and `now` are the two clock readings taken before the lock. */
    method ClaimPendingOutbox(limit: int, token: string, until: Instant, checkedAt: Instant, now: Instant)
      returns (r: Result<seq<OutboxRecord>, Error>)
      modifies this`events
      ensures r.Err? <==> token == "" || until <= checkedAt
      ensures r.Err? ==> r.error == Validation && events == old(events)
      ensures r.Ok? ==> events == Claim(old(events), now, EffectiveLimit(limit), token, until)
      ensures r.Ok? ==> r.value == StampAll(Scan(old(events), now, EffectiveLimit(limit)), token, until)
    {
      var n := EffectiveLimit(limit);
      if token == "" || until <= checkedAt {
        return Err(Validation);
      }
      hide Progress, Claim, Scan, StampAll;
      var records := [];
      var i := 0;
      ghost var before, done := events, [];
      ProgressStart(before, now, n, token, until);
      while i < |events|
        invariant 0 <= i == |done| <= |before| && |records| < n
        invariant events == done + before[i..]
        invariant Progress(before, now, n, token, until, done, records, i)
      {
        ProgressStep(before, now, n, token, until, done, records, i);
        SplitAt(done, before, i, Stamp(before[i], token, until));
        i := i + 1;
        if events[i - 1].published || events[i - 1].availableAt > now
          || (events[i - 1].claimedUntil.Some? && events[i - 1].claimedUntil.value > now)
        {
          done := done + [before[i - 1]];
          continue;
        }
        events := events[i - 1 := events[i - 1].(claimToken := token, claimedUntil := Some(until))];
        records := records + [events[i - 1]];
        done := done + [Stamp(before[i - 1], token, until)];
        if |records| == n {
          break;
        }
      }
      ProgressDone(before, now, n, token, until, done, records, i);
      r := Ok(records);
    }

    method MarkOutboxPublished(sequence: int, token: string, at: Instant) returns (r: Result<(), Error>)
      requires Valid()
      modifies this`events
      ensures Valid()
      ensures r.Ok? == MarkPublished(old(events), sequence, token, at).Ok?
      ensures r.Ok? ==> events == MarkPublished(old(events), sequence, token, at).value
      ensures r.Err? ==> events == old(events) && r.error == MarkPublished(old(events), sequence, token, at).error
    {
      for i := 0 to |events|
        invariant events == old(events)
        invariant !(1 <= sequence <= i)
      {
        if events[i].sequence != sequence {
          continue;
        }
        if events[i].claimToken == "" || events[i].claimToken != token {
          return Err(Conflict);
        }
        events := events[i := events[i].(published := true, lastError := "", claimToken := "",
                                         claimedUntil := None, dispatchedAt := Some(at))];
        return Ok(());
      }
      r := Err(NotFound);
    }

    method MarkOutboxFailed(sequence: int, token: string, lastError: string, retryAt: Instant) returns (r: Result<(), Error>)
      requires Valid()
      modifies this`events
      ensures Valid()
      ensures r.Ok? == MarkFailed(old(events), sequence, token, lastError, retryAt).Ok?
      ensures r.Ok? ==> events == MarkFailed(old(events), sequence, token, lastError, retryAt).value
      ensures r.Err? ==> events == old(events) && r.error == MarkFailed(old(events), sequence, token, lastError, retryAt).error
    {
      for i := 0 to |events|
        invariant events == old(events)
        invariant !(1 <= sequence <= i)
      {
        if events[i].sequence != sequence {
          continue;
        }
        if events[i].claimToken == "" || events[i].claimToken != token {
          return Err(Conflict);
        }
        events := events[i := events[i].(attempts := events[i].attempts + 1, lastError := lastError,
                                         availableAt := retryAt, claimToken := "", claimedUntil := None)];
        return Ok(());
      }
      r := Err(NotFound);
    }

    /** Collects the pending transfers, oldest first, and cuts the list at the limit. */
    method PendingSubmissions(limit: int, now: Instant) returns (batch: seq<Transfer>)
      requires Valid()
      ensures OldestPending(View(), now, EffectiveLimit(limit), batch)
    {
      var found: seq<Transfer> := [];
      var unseen := transfers.Keys;
      while unseen != {}
        invariant unseen <= transfers.Keys
        invariant Collected(View(), now, transfers.Keys - unseen, found)
        decreases unseen
      {
        var id :| id in unseen;
        ghost var seen := transfers.Keys - unseen;
        unseen := unseen - {id};
        assert transfers.Keys - unseen == seen + {id};
        if Pending(transfers[id], now) {
          CollectOne(View(), now, seen, id, found);
          found := InsertByAge(found, transfers[id]);
        } else {
          assert PendingIds(View(), now) * (seen + {id}) == PendingIds(View(), now) * seen;
        }
      }
      assert PendingIds(View(), now) * (transfers.Keys - unseen) == PendingIds(View(), now);
      batch := if |found| > EffectiveLimit(limit) then found[..EffectiveLimit(limit)] else found;
      CutIsOldest(View(), now, EffectiveLimit(limit), found);
    }
  }

  /** How far an in-place claim has come: the first `i` records are `done`, and
      finishing the rest gives the whole claim and the whole answer. */
  ghost predicate Progress(before: seq<OutboxRecord>, now: Instant, n: nat, token: string, until: Instant,
                           done: seq<OutboxRecord>, found: seq<OutboxRecord>, i: nat)
    requires i <= |before| && |found| <= n
  {
    && Claim(before, now, n, token, until) == done + Claim(before[i..], now, n - |found|, token, until)
    && StampAll(Scan(before, now, n), token, until) == found + StampAll(Scan(before[i..], now, n - |found|), token, until)
  }

  lemma SplitAt(done: seq<OutboxRecord>, before: seq<OutboxRecord>, i: nat, r: OutboxRecord)
    requires |done| == i < |before|
    ensures var all := done + before[i..];
            && all[i] == before[i]
            && all == (done + [before[i]]) + before[i + 1..]
            && all[i := r] == (done + [r]) + before[i + 1..]
  {
  }

  lemma ProgressStart(before: seq<OutboxRecord>, now: Instant, n: nat, token: string, until: Instant)
    ensures Progress(before, now, n, token, until, [], [], 0)
  {
    assert before[0..] == before;
  }

  /** The first record still to be looked at, spelled out. */
  lemma NextRecord(before: seq<OutboxRecord>, now: Instant, left: nat, token: string, until: Instant, i: nat)
    requires i < |before| && left > 0
    ensures var r, rest := before[i], before[i + 1..]; var stamped := Stamp(r, token, until);
            if Eligible(r, now)
            then && Claim(before[i..], now, left, token, until) == [stamped] + Claim(rest, now, left - 1, token, until)
                 && StampAll(Scan(before[i..], now, left), token, until) == [stamped] + StampAll(Scan(rest, now, left - 1), token, until)
            else && Claim(before[i..], now, left, token, until) == [r] + Claim(rest, now, left, token, until)
                 && Scan(before[i..], now, left) == Scan(rest, now, left)
  {
    assert before[i..][0] == before[i] && before[i..][1..] == before[i + 1..];
    if Eligible(before[i], now) {
      var tail := Scan(before[i + 1..], now, left - 1);
      assert StampAll([before[i]] + tail, token, until) == [Stamp(before[i], token, until)] + StampAll(tail, token, until);
    }
  }

  lemma ProgressStep(before: seq<OutboxRecord>, now: Instant, n: nat, token: string, until: Instant,
                     done: seq<OutboxRecord>, found: seq<OutboxRecord>, i: nat)
    requires i < |before| && |found| < n && Progress(before, now, n, token, until, done, found, i)
    ensures if Eligible(before[i], now)
            then var stamped := [Stamp(before[i], token, until)];
                 Progress(before, now, n, token, until, done + stamped, found + stamped, i + 1)
            else Progress(before, now, n, token, until, done + [before[i]], found, i + 1)
  {
    hide Claim, Scan, StampAll, Eligible, Stamp;
    NextRecord(before, now, n - |found|, token, until, i);
  }

  lemma ProgressDone(before: seq<OutboxRecord>, now: Instant, n: nat, token: string, until: Instant,
                     done: seq<OutboxRecord>, found: seq<OutboxRecord>, i: nat)
    requires i <= |before| && |found| <= n && Progress(before, now, n, token, until, done, found, i)
    requires |found| == n || i == |before|
    ensures Claim(before, now, n, token, until) == done + before[i..]
    ensures StampAll(Scan(before, now, n), token, until) == found
  {
  }

  /** Inserts a transfer into a list kept oldest first. */
  function InsertByAge(list: seq<Transfer>, t: Transfer): (r: seq<Transfer>)
    ensures |r| == |list| + 1
  {
    if list == [] || t.createdAt < list[0].createdAt then [t] + list else [list[0]] + InsertByAge(list[1..], t)
  }

  function Ids(list: seq<Transfer>): set<string> {
    set i | 0 <= i < |list| :: list[i].id
  }

  predicate Precedes(a: Transfer, b: Transfer) {
    a.id != b.id && a.createdAt <= b.createdAt
  }

  /** Oldest first, and no id twice. */
  ghost predicate OldestFirst(list: seq<Transfer>) {
    forall i, j :: 0 <= i < j < |list| ==> Precedes(list[i], list[j])
  }

  /** `found` lists, oldest first, exactly the pending transfers among `seen`. */
  ghost predicate Collected(s: State, now: Instant, seen: set<string>, found: seq<Transfer>) {
    && OldestFirst(found)
    && Ids(found) == PendingIds(s, now) * seen
    && (forall i :: 0 <= i < |found| ==> found[i].id in s.transfers && s.transfers[found[i].id] == found[i])
  }

  lemma {:induction false} InsertByAgeKeepsOrder(list: seq<Transfer>, t: Transfer)
    requires OldestFirst(list) && forall u :: u in list ==> u.id != t.id
    ensures OldestFirst(InsertByAge(list, t))
    ensures forall u :: u in InsertByAge(list, t) <==> u in list || u == t
  {
    if list != [] && t.createdAt >= list[0].createdAt {
      InsertByAgeKeepsOrder(list[1..], t);
      var inner := InsertByAge(list[1..], t);
      assert list[0] in list;
      forall k | 0 <= k < |inner|
        ensures Precedes(list[0], inner[k])
      {
        assert inner[k] in inner;
      }
    } else {
      assert forall i :: 0 <= i < |list| ==> list[i] in list;
    }
  }

  lemma CollectOne(s: State, now: Instant, seen: set<string>, id: string, found: seq<Transfer>)
    requires Filed(s) && id in s.transfers && id !in seen && Pending(s.transfers[id], now)
    requires Collected(s, now, seen, found)
    ensures Collected(s, now, seen + {id}, InsertByAge(found, s.transfers[id]))
  {
    var t := s.transfers[id];
    var after := InsertByAge(found, t);
    forall u | u in found
      ensures u.id != id
    {
      assert u.id in Ids(found);
    }
    InsertByAgeKeepsOrder(found, t);
    forall i | 0 <= i < |after|
      ensures after[i].id in PendingIds(s, now) * (seen + {id}) && s.transfers[after[i].id] == after[i]
    {
      assert after[i] in after;
      if after[i] in found {
        assert after[i].id in Ids(found);
      }
    }
    forall x | x in PendingIds(s, now) * (seen + {id})
      ensures x in Ids(after)
    {
      if x == id {
        assert t in after;
      } else {
        assert x in Ids(found);
        var k :| 0 <= k < |found| && found[k].id == x;
        assert found[k] in after;
      }
    }
  }

  lemma {:induction false} DistinctIdsCount(list: seq<Transfer>)
    requires OldestFirst(list)
    ensures |Ids(list)| == |list|
  {
    if list != [] {
      var init := list[..|list| - 1];
      DistinctIdsCount(init);
      assert Ids(list) == Ids(init) + {list[|list| - 1].id};
    } else {
      assert Ids(list) == {};
    }
  }

  lemma NoneOlderLeft(s: State, now: Instant, found: seq<Transfer>, k: nat, i: nat, id: string)
    requires Collected(s, now, s.transfers.Keys, found) && i < k <= |found|
    requires id in PendingIds(s, now) && id !in Ids(found[..k])
    ensures found[i].createdAt <= s.transfers[id].createdAt
  {
    assert id in Ids(found);
    hide PendingIds;
    var j :| 0 <= j < |found| && found[j].id == id;
    assert Precedes(found[i], found[j]);
  }

  lemma CutIsPending(s: State, now: Instant, found: seq<Transfer>, k: nat, i: nat)
    requires Collected(s, now, s.transfers.Keys, found) && i < k <= |found|
    ensures found[i].id in PendingIds(s, now) && s.transfers[found[i].id] == found[i]
  {
    assert found[i].id in Ids(found);
    hide PendingIds;
  }

  lemma CutCounts(s: State, now: Instant, found: seq<Transfer>)
    requires Collected(s, now, s.transfers.Keys, found)
    ensures |found| == |PendingIds(s, now)|
  {
    DistinctIdsCount(found);
    assert PendingIds(s, now) * s.transfers.Keys == PendingIds(s, now);
  }

  lemma CutIsOldest(s: State, now: Instant, limit: nat, found: seq<Transfer>)
    requires Collected(s, now, s.transfers.Keys, found)
    ensures OldestPending(s, now, limit, if |found| > limit then found[..limit] else found)
  {
    var k := if |found| > limit then limit else |found|;
    var batch := found[..k];
    assert batch == if |found| > limit then found[..limit] else found;
    CutCounts(s, now, found);
    assert forall i, j :: 0 <= i < j < |batch| ==> Precedes(batch[i], batch[j]);
    hide Collected, PendingIds, Ids;
    forall i | 0 <= i < |batch|
      ensures batch[i].id in PendingIds(s, now) && s.transfers[batch[i].id] == batch[i]
    {
      CutIsPending(s, now, found, k, i);
    }
    forall i, id | 0 <= i < |batch| && id in PendingIds(s, now) - Ids(batch)
      ensures batch[i].createdAt <= s.transfers[id].createdAt
    {
      NoneOlderLeft(s, now, found, k, i, id);
    }
  }
}
