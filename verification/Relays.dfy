/** Any number of relays draining one outbox.  A relay's `Drain` is cut at its
    store calls, its publish calls and its clock readings; a relay may stop for
    good anywhere.  Three logs that the program does not keep record deliveries,
    which delivery acknowledged a record, and recorded failures. */
module Relays {
  import opened Wrappers
  import opened Instants
  import opened Rail
  import opened Events
  import opened Outbox
  import opened Retry

  datatype Phase =
    | Started(limit: int, token: string, until: Instant)
    | Checked(limit: int, token: string, until: Instant, checkedAt: Instant)
    | Working(token: string, until: Instant, todo: seq<OutboxRecord>)
    | Delivered(token: string, until: Instant, todo: seq<OutboxRecord>, delivery: nat)
    | Undelivered(token: string, until: Instant, todo: seq<OutboxRecord>, lastError: string, failedAt: Instant)

  /** How an attempt to acknowledge went. */
  datatype Mark = Mark(at: Instant, ok: bool)

  /** A publish call that succeeded, and the acknowledgement that followed, if any. */
  datatype Delivery = Delivery(sequence: int, token: string, until: Instant, at: Instant, mark: Option<Mark>)

  /** A publish call that failed and was recorded; `at` is when it failed. */
  datatype Failure = Failure(sequence: int, at: Instant)

  datatype World = World(
    records: seq<OutboxRecord>, clock: Instant, relays: map<nat, Phase>, issued: set<string>,
    deliveries: seq<Delivery>, acked: map<int, nat>, failures: seq<Failure>)

  const INITIAL: World := World([], 0, map[], {}, [], map[], [])

  datatype Step =
    | Tick(to: Instant)
    | Append(events: seq<Event>)
    | Start(relay: nat, limit: int, token: string)
    | Check(relay: nat)
    | Take(relay: nat, readAt: Instant)
    | Publish(relay: nat, error: Option<string>)
    | Report(relay: nat)
    | Stop(relay: nat)

  predicate Enabled(w: World, a: Step) {
    match a
    case Tick(to) => w.clock <= to
    case Append(_) => true
    case Start(r, _, token) => r !in w.relays && token !in w.issued && token != ""
    case Check(r) => r in w.relays && w.relays[r].Started?
    case Take(r, readAt) => r in w.relays && w.relays[r].Checked? && w.relays[r].checkedAt <= readAt <= w.clock
    case Publish(r, _) => r in w.relays && w.relays[r].Working? && w.relays[r].todo != []
    case Report(r) => r in w.relays && (w.relays[r].Delivered? || w.relays[r].Undelivered?) && w.relays[r].todo != []
    case Stop(r) => r in w.relays
  }

  /** On to the next record, or done. */
  function Onward(w: World, r: nat, token: string, until: Instant, todo: seq<OutboxRecord>): World {
    if |todo| <= 1 then w.(relays := w.relays - {r})
    else w.(relays := w.relays[r := Working(token, until, todo[1..])])
  }

  function Apply(policy: Policy, w: World, a: Step): World
    requires Enabled(w, a)
  {
    match a
    case Tick(to) => w.(clock := to)
    case Append(events) => w.(records := Enqueue(w.records, |w.records|, events))
    case Start(r, limit, token) =>
      w.(relays := w.relays[r := Started(limit, token, w.clock + policy.ttl)], issued := w.issued + {token})
    case Check(r) =>
      var p := w.relays[r];
      if p.until <= w.clock then w.(relays := w.relays - {r})
      else w.(relays := w.relays[r := Checked(p.limit, p.token, p.until, w.clock)])
    case Take(r, readAt) => TakeUp(w, r, readAt)
    case Publish(r, error) =>
      var p := w.relays[r];
      (match error
       case None =>
         w.(relays := w.relays[r := Delivered(p.token, p.until, p.todo, |w.deliveries|)],
            deliveries := w.deliveries + [Delivery(p.todo[0].sequence, p.token, p.until, w.clock, None)])
       case Some(text) => w.(relays := w.relays[r := Undelivered(p.token, p.until, p.todo, text, w.clock)]))
    case Report(r) => if w.relays[r].Delivered? then Acknowledge(w, r) else PutBack(policy, w, r)
    case Stop(r) => w.(relays := w.relays - {r})
  }

  /** `ClaimPendingOutbox`, with the clock reading it took before the lock. */
  function TakeUp(w: World, r: nat, readAt: Instant): World
    requires r in w.relays && w.relays[r].Checked?
  {
    var p := w.relays[r];
    var n := EffectiveLimit(p.limit);
    var found := StampAll(Scan(w.records, readAt, n), p.token, p.until);
    w.(records := Claim(w.records, readAt, n, p.token, p.until),
       relays := if found == [] then w.relays - {r} else w.relays[r := Working(p.token, p.until, found)])
  }

  /** `MarkOutboxPublished`; a refused mark ends the drain. */
  function Acknowledge(w: World, r: nat): World
    requires r in w.relays && w.relays[r].Delivered? && w.relays[r].todo != []
  {
    var p := w.relays[r];
    var q := p.todo[0].sequence;
    var marked := MarkPublished(w.records, q, p.token, w.clock);
    var logged := if p.delivery < |w.deliveries|
      then w.deliveries[p.delivery := w.deliveries[p.delivery].(mark := Some(Mark(w.clock, marked.Ok?)))]
      else w.deliveries;
    if marked.Err? then w.(relays := w.relays - {r}, deliveries := logged)
    else Onward(w, r, p.token, p.until, p.todo).(records := marked.value, deliveries := logged, acked := w.acked[q := p.delivery])
  }

  /** `MarkOutboxFailed`, rescheduling the record by the backoff for its next attempt. */
  function PutBack(policy: Policy, w: World, r: nat): World
    requires r in w.relays && w.relays[r].Undelivered? && w.relays[r].todo != []
  {
    var p := w.relays[r];
    var x := p.todo[0];
    var marked := MarkFailed(w.records, x.sequence, p.token, p.lastError, p.failedAt + Backoff(policy, x.attempts + 1));
    if marked.Err? then w.(relays := w.relays - {r})
    else Onward(w, r, p.token, p.until, p.todo).(records := marked.value, failures := w.failures + [Failure(x.sequence, p.failedAt)])
  }

  ghost predicate Runs(policy: Policy, w: World, steps: seq<Step>)
    decreases steps
  {
    steps == [] || (Enabled(w, steps[0]) && Runs(policy, Apply(policy, w, steps[0]), steps[1..]))
  }

  ghost function Run(policy: Policy, w: World, steps: seq<Step>): World
    requires Runs(policy, w, steps)
    decreases steps
  {
    if steps == [] then w else Run(policy, Apply(policy, w, steps[0]), steps[1..])
  }

  // ----------------------------------------------------------- the invariant

  predicate RecordOk(r: OutboxRecord) {
    (r.published ==> r.claimToken == "") && (r.claimToken != "" ==> r.claimedUntil.Some?)
  }

  ghost predicate RecordsOk(records: seq<OutboxRecord>, issued: set<string>) {
    && Numbered(records)
    && (forall i :: 0 <= i < |records| ==>
          RecordOk(records[i]) && (records[i].claimToken != "" ==> records[i].claimToken in issued))
  }

  /** A record a relay still has to deal with: the relay holds it as it was when
      claimed, or the claim has run out. */
  predicate Owned(r: OutboxRecord, clock: Instant, token: string, until: Instant, x: OutboxRecord) {
    && (r.claimToken == token ==> !r.published && r.claimedUntil == Some(until) && r.attempts == x.attempts)
    && (r.claimToken == token || until <= clock)
  }

  ghost predicate TodoOk(records: seq<OutboxRecord>, clock: Instant, token: string, until: Instant, todo: seq<OutboxRecord>) {
    && todo != [] && Ascending(todo)
    && (forall k :: 0 <= k < |todo| ==>
          1 <= todo[k].sequence <= |records| && Owned(records[todo[k].sequence - 1], clock, token, until, todo[k]))
  }

  ghost predicate Unused(records: seq<OutboxRecord>, token: string) {
    forall i :: 0 <= i < |records| ==> records[i].claimToken != token
  }

  ghost predicate PhaseOk(records: seq<OutboxRecord>, clock: Instant, deliveries: seq<Delivery>, p: Phase) {
    && p.token != ""
    && match p
       case Started(_, token, _) => Unused(records, token)
       case Checked(_, token, _, _) => Unused(records, token)
       case Working(token, until, todo) => TodoOk(records, clock, token, until, todo)
       case Delivered(token, until, todo, d) =>
         && TodoOk(records, clock, token, until, todo)
         && d < |deliveries| && deliveries[d].mark.None?
         && deliveries[d].sequence == todo[0].sequence && deliveries[d].token == token && deliveries[d].until == until
       case Undelivered(token, until, todo, _, _) => TodoOk(records, clock, token, until, todo)
  }

  ghost predicate RelaysOk(w: World) {
    && (forall r :: r in w.relays ==> w.relays[r].token in w.issued && PhaseOk(w.records, w.clock, w.deliveries, w.relays[r]))
    && (forall r, q :: r in w.relays && q in w.relays && r != q ==> w.relays[r].token != w.relays[q].token)
  }

  predicate Acked(d: Delivery) {
    d.mark.Some? && d.mark.value.ok
  }

  /** Every delivery is of a stored record, and a mark made in time went through. */
  predicate DeliveryOk(n: nat, d: Delivery) {
    1 <= d.sequence <= n && (d.mark.Some? && d.mark.value.at < d.until ==> d.mark.value.ok)
  }

  /** The published records are exactly the acknowledged ones, one delivery each. */
  ghost predicate AcksOk(records: seq<OutboxRecord>, deliveries: seq<Delivery>, acked: map<int, nat>) {
    && (forall q :: q in acked ==>
          && 1 <= q <= |records| && records[q - 1].published
          && acked[q] < |deliveries| && deliveries[acked[q]].sequence == q && Acked(deliveries[acked[q]]))
    && (forall i :: 0 <= i < |records| && records[i].published ==> i + 1 in acked)
    && (forall d :: 0 <= d < |deliveries| && Acked(deliveries[d]) ==>
          deliveries[d].sequence in acked && acked[deliveries[d].sequence] == d)
  }

  ghost predicate DeliveriesOk(n: nat, deliveries: seq<Delivery>) {
    forall d :: 0 <= d < |deliveries| ==> DeliveryOk(n, deliveries[d])
  }

  /** When the publish calls of one record failed, in order. */
  function FailuresOf(failures: seq<Failure>, q: int): seq<Instant> {
    if failures == [] then []
    else
      var last := failures[|failures| - 1];
      FailuresOf(failures[..|failures| - 1], q) + (if last.sequence == q then [last.at] else [])
  }

  /** A record has as many attempts as recorded failures, and is available again
      exactly the backoff for that many attempts after the latest of them. */
  predicate Scheduled(policy: Policy, r: OutboxRecord, failed: seq<Instant>) {
    && r.attempts == |failed|
    && r.availableAt == if failed == [] then r.event.occurredAt else failed[|failed| - 1] + Backoff(policy, |failed|)
  }

  ghost predicate FailuresOk(policy: Policy, records: seq<OutboxRecord>, failures: seq<Failure>) {
    && (forall i :: 0 <= i < |records| ==> Scheduled(policy, records[i], FailuresOf(failures, i + 1)))
    && (forall k :: 0 <= k < |failures| ==> failures[k].sequence <= |records|)
  }

  ghost predicate Inv(policy: Policy, w: World) {
    && RecordsOk(w.records, w.issued)
    && RelaysOk(w)
    && DeliveriesOk(|w.records|, w.deliveries)
    && AcksOk(w.records, w.deliveries, w.acked)
    && FailuresOk(policy, w.records, w.failures)
  }

  lemma InitialInv(policy: Policy)
    ensures Inv(policy, INITIAL)
  {
  }

  // ------------------------------------------- what a relay leaves to the others

  /** How a step by the relay with `token` may change a record: not at all, or
      only an unpublished one that was free, its own, or whose claim has run out. */
  predicate Changed(r: OutboxRecord, r': OutboxRecord, clock: Instant, token: string) {
    || r' == r
    || (&& r'.event == r.event && r'.sequence == r.sequence
        && !r.published && RecordOk(r')
        && (r'.claimToken == token || r'.claimToken == "")
        && (r.claimToken == token || r.claimToken == "" || (r.claimedUntil.Some? && r.claimedUntil.value <= clock)))
  }

  ghost predicate Touches(records: seq<OutboxRecord>, records': seq<OutboxRecord>, clock: Instant, token: string) {
    && |records'| == |records|
    && (forall i :: 0 <= i < |records| ==> Changed(records[i], records'[i], clock, token))
  }

  lemma OthersStillOwn(records: seq<OutboxRecord>, records': seq<OutboxRecord>, clock: Instant, token: string,
                       other: string, until: Instant, todo: seq<OutboxRecord>)
    requires TodoOk(records, clock, other, until, todo) && Touches(records, records', clock, token)
    requires other != token && other != ""
    ensures TodoOk(records', clock, other, until, todo)
  {
    forall k | 0 <= k < |todo|
      ensures Owned(records'[todo[k].sequence - 1], clock, other, until, todo[k])
    {
      assert Owned(records[todo[k].sequence - 1], clock, other, until, todo[k]);
      assert Changed(records[todo[k].sequence - 1], records'[todo[k].sequence - 1], clock, token);
    }
  }

  lemma OtherStaysOk(records: seq<OutboxRecord>, records': seq<OutboxRecord>, clock: Instant, token: string,
                     deliveries: seq<Delivery>, deliveries': seq<Delivery>, p: Phase)
    requires PhaseOk(records, clock, deliveries, p) && Touches(records, records', clock, token) && p.token != token
    requires |deliveries| <= |deliveries'|
    requires forall d :: 0 <= d < |deliveries| && deliveries[d].token != token ==> deliveries'[d] == deliveries[d]
    ensures PhaseOk(records', clock, deliveries', p)
  {
    hide TodoOk;
    if p.Started? || p.Checked? {
      forall i | 0 <= i < |records'|
        ensures records'[i].claimToken != p.token
      {
        assert Changed(records[i], records'[i], clock, token);
      }
    } else {
      OthersStillOwn(records, records', clock, token, p.token, p.until, p.todo);
    }
  }

  lemma TouchesKeepsRecords(records: seq<OutboxRecord>, records': seq<OutboxRecord>, clock: Instant, token: string, issued: set<string>)
    requires RecordsOk(records, issued) && Touches(records, records', clock, token) && token in issued
    ensures RecordsOk(records', issued)
  {
    forall i | 0 <= i < |records'|
      ensures records'[i].sequence == i + 1 && RecordOk(records'[i])
      ensures records'[i].claimToken != "" ==> records'[i].claimToken in issued
    {
      assert Changed(records[i], records'[i], clock, token);
    }
  }
}
