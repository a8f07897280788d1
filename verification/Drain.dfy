/** The relay object and its publisher.  Alone on the outbox, one drain deals with
    exactly the records a scan would have returned, in sequence order. */
module Drain {
  import opened Wrappers
  import opened Instants
  import opened Rail
  import opened Events
  import opened Outbox
  import opened Store
  import opened Retry

  datatype Stats = Stats(scanned: nat, published: nat, retried: nat)

  /** What the k-th publish call of a drain comes to: nothing, or an error text. */
  type Outcomes = nat -> Option<string>

  /** How a drain leaves the k-th record it found. */
  function Reported(policy: Policy, r: OutboxRecord, k: nat, outcomes: Outcomes, clock: nat -> Instant): OutboxRecord {
    match outcomes(k)
    case None => Published(r, clock(3 + k))
    case Some(text) => Failed(r, text, clock(3 + k) + Backoff(policy, r.attempts + 1))
  }

  /** The events a drain gets delivered, in order. */
  function DeliveredOf(found: seq<OutboxRecord>, outcomes: Outcomes): seq<Event> {
    if found == [] then []
    else
      DeliveredOf(found[..|found| - 1], outcomes)
      + (if outcomes(|found| - 1).None? then [found[|found| - 1].event] else [])
  }

  /** `InMemoryPublisher`, with failures decided from outside. */
  class Publisher {
    var events: seq<Event>

    constructor ()
      ensures events == []
    {
      events := [];
    }

    method Publish(event: Event, outcome: Option<string>) returns (error: Option<string>)
      modifies this
      ensures error == outcome
      ensures events == if outcome.None? then old(events) + [event] else old(events)
    {
      if outcome.None? {
        events := events + [event];
      }
      error := outcome;
    }
  }

  class Relay {
    const store: MemoryStore
    const publisher: Publisher
    const policy: Policy

    constructor (store: MemoryStore, publisher: Publisher, policy: Policy)
      ensures this.store == store && this.publisher == publisher && this.policy == WithDefaults(policy)
    {
      this.store := store;
      this.publisher := publisher;
      this.policy := WithDefaults(policy);
    }

    /** One turn of the drain: publish, then acknowledge or put back. */
    method DeliverOne(record: OutboxRecord, token: string, outcome: Option<string>, at: Instant) returns (delivered: bool)
      requires store.Valid() && 1 <= record.sequence <= |store.events| && Held(store.events[record.sequence - 1], token)
      modifies store`events, publisher
      ensures store.Valid() && delivered == outcome.None?
      ensures var i := record.sequence - 1; var r := old(store.events)[i];
              store.events == old(store.events)[i := match outcome
                                                     case None => Published(r, at)
                                                     case Some(text) => Failed(r, text, at + Backoff(policy, record.attempts + 1))]
      ensures publisher.events == if outcome.None? then old(publisher.events) + [record.event] else old(publisher.events)
    {
      hide Backoff;
      var failed := publisher.Publish(record.event, outcome);
      if failed.Some? {
        var wait := ComputeBackoff(policy, record.attempts + 1);
        var putBack := store.MarkOutboxFailed(record.sequence, token, failed.value, at + wait);
        return false;
      }
      var marked := store.MarkOutboxPublished(record.sequence, token, at);
      delivered := true;
    }

    /** The first half of a drain: what a scan would return is stamped, nothing is reported yet. */
    method ClaimBatch(limit: int, token: string, until: Instant, ghost outcomes: Outcomes, clock: nat -> Instant)
      returns (r: Result<seq<OutboxRecord>, Error>)
      requires store.Valid() && token != ""
      requires forall r :: r in store.events ==> r.claimToken != token
      modifies store`events
      ensures store.Valid()
      ensures r.Err? <==> until <= clock(1)
      ensures r.Err? ==> r.error == Validation && store.events == old(store.events)
      ensures r.Ok? ==>
                var found := Scan(old(store.events), clock(2), EffectiveLimit(limit));
                && r.value == StampAll(found, token, until)
                && Drained(policy, old(store.events), store.events, found, 0, token, until, outcomes, clock)
    {
      hide Scan, Claim, Drained, StampAll;
      ghost var before := store.events;
      ClaimKeepsNumbering(before, clock(2), EffectiveLimit(limit), token, until);
      DrainStarts(policy, before, clock(2), EffectiveLimit(limit), token, until, outcomes, clock);
      r := store.ClaimPendingOutbox(limit, token, until, clock(1), clock(2));
    }

    /** One turn of the second half: the k-th claimed record is published and reported. */
    method ReportNext(record: OutboxRecord, token: string, outcomes: Outcomes, clock: nat -> Instant, k: nat,
                      ghost before: seq<OutboxRecord>, ghost found: seq<OutboxRecord>, ghost until: Instant) returns (delivered: bool)
      requires store.Valid() && token != "" && k < |found| && record == StampAll(found, token, until)[k]
      requires Drained(policy, before, store.events, found, k, token, until, outcomes, clock)
      modifies store`events, publisher
      ensures store.Valid()
      ensures Drained(policy, before, store.events, found, k + 1, token, until, outcomes, clock)
      ensures delivered == outcomes(k).None?
      ensures publisher.events == if outcomes(k).None? then old(publisher.events) + [found[k].event] else old(publisher.events)
    {
      hide Drained, Backoff, Stamp, StampAll, Published, Failed, Reported, Held;
      DrainHolds(policy, before, store.events, found, k, token, until, outcomes, clock);
      ClaimedAs(policy, found, k, token, until, outcomes, clock);
      delivered := DeliverOne(record, token, outcomes(k), clock(3 + k));
    }

    /** `token` is new.  The drain reads `clock(0)` for the expiry, `clock(1)` and
        `clock(2)` inside the claim, and `clock(3 + k)` for the k-th record. */
    method Drain(limit: int, token: string, outcomes: Outcomes, clock: nat -> Instant)
      returns (stats: Stats, error: Option<Error>)
      requires store.Valid() && token != ""
      requires forall r :: r in store.events ==> r.claimToken != token
      modifies store`events, publisher
      ensures store.Valid()
      ensures clock(0) + policy.ttl <= clock(1) ==>
                error == Some(Validation) && store.events == old(store.events) && publisher.events == old(publisher.events)
      ensures clock(1) < clock(0) + policy.ttl ==>
                var found := Scan(old(store.events), clock(2), EffectiveLimit(limit));
                && error.None?
                && stats.scanned == |found| == stats.published + stats.retried
                && stats.published == |DeliveredOf(found, outcomes)|
                && Drained(policy, old(store.events), store.events, found, |found|, token, clock(0) + policy.ttl, outcomes, clock)
                && publisher.events == old(publisher.events) + DeliveredOf(found, outcomes)
    {
      hide Scan, Drained, DeliveredOf, StampAll;
      var until := clock(0) + policy.ttl;
      ghost var before := store.events;
      ghost var found := Scan(before, clock(2), EffectiveLimit(limit));
      var claimed := ClaimBatch(limit, token, until, outcomes, clock);
      if claimed.Err? {
        return Stats(0, 0, 0), Some(claimed.error);
      }
      var records := claimed.value;
      stats := ReportAll(records, token, outcomes, clock, before, found, until);
      error := None;
    }

    /** The second half of a drain. */
    method ReportAll(records: seq<OutboxRecord>, token: string, outcomes: Outcomes, clock: nat -> Instant,
                     ghost before: seq<OutboxRecord>, ghost found: seq<OutboxRecord>, ghost until: Instant) returns (stats: Stats)
      requires store.Valid() && token != "" && records == StampAll(found, token, until)
      requires Drained(policy, before, store.events, found, 0, token, until, outcomes, clock)
      modifies store`events, publisher
      ensures store.Valid()
      ensures stats.scanned == |found| == stats.published + stats.retried
      ensures stats.published == |DeliveredOf(found, outcomes)|
      ensures Drained(policy, before, store.events, found, |found|, token, until, outcomes, clock)
      ensures publisher.events == old(publisher.events) + DeliveredOf(found, outcomes)
    {
      hide Drained, DeliveredOf;
      ghost var out := publisher.events;
      stats := Stats(|records|, 0, 0);
      NothingDelivered(out, found, outcomes);
      for k := 0 to |records|
        invariant store.Valid()
        invariant stats.scanned == |records| && stats.published + stats.retried == k
        invariant stats.published == |DeliveredOf(found[..k], outcomes)|
        invariant Drained(policy, before, store.events, found, k, token, until, outcomes, clock)
        invariant publisher.events == out + DeliveredOf(found[..k], outcomes)
      {
        DeliveredOneMore(out, found, k, outcomes);
        var delivered := ReportNext(records[k], token, outcomes, clock, k, before, found, until);
        stats := if delivered then stats.(published := stats.published + 1) else stats.(retried := stats.retried + 1);
      }
      assert found[..|records|] == found;
    }
  }

  /** The first `k` found records are reported, the rest of the found ones carry
      the stamp, and every other record is as it was. */
  ghost predicate Drained(policy: Policy, before: seq<OutboxRecord>, after: seq<OutboxRecord>, found: seq<OutboxRecord>, k: nat,
                          token: string, until: Instant, outcomes: Outcomes, clock: nat -> Instant)
  {
    && |after| == |before| && Ascending(found)
    && (forall j :: 0 <= j < |found| ==>
          && 1 <= found[j].sequence <= |before| && before[found[j].sequence - 1] == found[j]
          && after[found[j].sequence - 1] ==
               if j < k then Reported(policy, found[j], j, outcomes, clock) else Stamp(found[j], token, until))
    && (forall i :: 0 <= i < |before| && before[i] !in found ==> after[i] == before[i])
  }

  lemma DrainStarts(policy: Policy, before: seq<OutboxRecord>, now: Instant, limit: nat, token: string, until: Instant,
                    outcomes: Outcomes, clock: nat -> Instant)
    requires Numbered(before) && token != "" && forall r :: r in before ==> r.claimToken != token
    ensures Drained(policy, before, Claim(before, now, limit, token, until), Scan(before, now, limit), 0, token, until, outcomes, clock)
  {
    hide Claim, Scan, Reported;
    var found, after := Scan(before, now, limit), Claim(before, now, limit, token, until);
    ScanAscends(before, now, limit);
    forall i | 0 <= i < |before|
      ensures after[i] == if before[i] in found then Stamp(before[i], token, until) else before[i]
    {
      ClaimStampsTheScan(before, now, limit, token, until, i);
      ClaimTouchesOnlyEligible(before, now, limit, token, until, i);
      assert before[i] in before;
    }
    forall j | 0 <= j < |found|
      ensures 1 <= found[j].sequence <= |before| && before[found[j].sequence - 1] == found[j]
    {
      assert found[j] in found;
      var i :| 0 <= i < |before| && before[i] == found[j];
    }
  }

  /** Reporting the next record succeeds and moves the drain on by one. */
  lemma DrainHolds(policy: Policy, before: seq<OutboxRecord>, now: seq<OutboxRecord>, found: seq<OutboxRecord>, k: nat,
                   token: string, until: Instant, outcomes: Outcomes, clock: nat -> Instant)
    requires Drained(policy, before, now, found, k, token, until, outcomes, clock) && k < |found| && token != ""
    ensures var i := found[k].sequence - 1;
            && 0 <= i < |now| && Held(now[i], token)
            && Drained(policy, before, now[i := Reported(policy, found[k], k, outcomes, clock)], found, k + 1, token, until, outcomes, clock)
            && now[i] == Stamp(found[k], token, until)
  {
    hide Reported;
    var i := found[k].sequence - 1;
    var after := now[i := Reported(policy, found[k], k, outcomes, clock)];
    forall j | 0 <= j < |found|
      ensures after[found[j].sequence - 1] ==
                if j < k + 1 then Reported(policy, found[j], j, outcomes, clock) else Stamp(found[j], token, until)
    {
      assert j != k ==> found[j].sequence != found[k].sequence;
    }
    assert before[i] in found;
  }

  /** The k-th claimed record is the k-th found one, stamped; reporting it drops the stamp. */
  lemma ClaimedAs(policy: Policy, found: seq<OutboxRecord>, k: nat, token: string, until: Instant,
                  outcomes: Outcomes, clock: nat -> Instant)
    requires k < |found|
    ensures var x := StampAll(found, token, until)[k];
            && x == Stamp(found[k], token, until)
            && x.sequence == found[k].sequence && x.attempts == found[k].attempts && x.event == found[k].event
            && Reported(policy, found[k], k, outcomes, clock) ==
                 match outcomes(k)
                 case None => Published(x, clock(3 + k))
                 case Some(text) => Failed(x, text, clock(3 + k) + Backoff(policy, x.attempts + 1))
  {
    hide Backoff;
  }

  lemma NothingDelivered(out: seq<Event>, found: seq<OutboxRecord>, outcomes: Outcomes)
    ensures out + DeliveredOf(found[..0], outcomes) == out && |DeliveredOf(found[..0], outcomes)| == 0
  {
  }

  /** What has come out, with one more turn. */
  lemma DeliveredOneMore(out: seq<Event>, found: seq<OutboxRecord>, k: nat, outcomes: Outcomes)
    requires k < |found|
    ensures out + DeliveredOf(found[..k + 1], outcomes)
         == if outcomes(k).None? then (out + DeliveredOf(found[..k], outcomes)) + [found[k].event]
            else out + DeliveredOf(found[..k], outcomes)
    ensures |DeliveredOf(found[..k + 1], outcomes)| == |DeliveredOf(found[..k], outcomes)| + (if outcomes(k).None? then 1 else 0)
  {
    assert found[..k + 1][..k] == found[..k];
    var d := DeliveredOf(found[..k], outcomes);
    assert out + (d + [found[k].event]) == (out + d) + [found[k].event];
    assert d + [] == d;
  }
}
