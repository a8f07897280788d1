/** Every step of every relay keeps the invariant, and the outbox only moves
    forward: stored events never change and a published record is frozen. */
module RelaySteps {
  import opened Wrappers
  import opened Instants
  import opened Rail
  import opened Events
  import opened Outbox
  import opened Retry
  import opened Relays

  // --------------------------------------------------------- how records move

  /** A later outbox: events and numbers stay, published records are frozen. */
  ghost predicate Forward(a: seq<OutboxRecord>, b: seq<OutboxRecord>) {
    && |a| <= |b|
    && (forall i :: 0 <= i < |a| ==>
          && b[i].event == a[i].event && b[i].sequence == a[i].sequence
          && (a[i].published ==> b[i] == a[i]))
  }

  lemma ForwardTransitive(a: seq<OutboxRecord>, b: seq<OutboxRecord>, c: seq<OutboxRecord>)
    requires Forward(a, b) && Forward(b, c)
    ensures Forward(a, c)
  {
  }

  lemma TouchesForward(a: seq<OutboxRecord>, b: seq<OutboxRecord>, clock: Instant, token: string)
    requires Touches(a, b, clock, token)
    ensures Forward(a, b)
  {
    forall i | 0 <= i < |a|
      ensures b[i].event == a[i].event && b[i].sequence == a[i].sequence && (a[i].published ==> b[i] == a[i])
    {
      assert Changed(a[i], b[i], clock, token);
    }
  }

  lemma AcksCarryOver(a: seq<OutboxRecord>, b: seq<OutboxRecord>, deliveries: seq<Delivery>, acked: map<int, nat>)
    requires AcksOk(a, deliveries, acked) && |a| <= |b|
    requires forall i :: 0 <= i < |a| ==> b[i].published == a[i].published
    requires forall i :: |a| <= i < |b| ==> !b[i].published
    ensures AcksOk(b, deliveries, acked)
  {
  }

  lemma FailuresCarryOver(policy: Policy, a: seq<OutboxRecord>, b: seq<OutboxRecord>, failures: seq<Failure>)
    requires FailuresOk(policy, a, failures) && |a| == |b|
    requires forall i :: 0 <= i < |a| ==>
               b[i].attempts == a[i].attempts && b[i].availableAt == a[i].availableAt && b[i].event == a[i].event
    ensures FailuresOk(policy, b, failures)
  {
    forall i | 0 <= i < |b|
      ensures Scheduled(policy, b[i], FailuresOf(failures, i + 1))
    {
      assert Scheduled(policy, a[i], FailuresOf(failures, i + 1));
    }
  }

  /** The other relays, after a step by `r` that changed records and deliveries. */
  lemma OthersAfter(w: World, r: nat, records': seq<OutboxRecord>, deliveries': seq<Delivery>)
    requires RelaysOk(w) && r in w.relays
    requires Touches(w.records, records', w.clock, w.relays[r].token)
    requires |w.deliveries| <= |deliveries'|
    requires forall d :: 0 <= d < |w.deliveries| && w.deliveries[d].token != w.relays[r].token ==> deliveries'[d] == w.deliveries[d]
    ensures forall q :: q in w.relays && q != r ==> PhaseOk(records', w.clock, deliveries', w.relays[q])
  {
    hide PhaseOk, Touches;
    forall q | q in w.relays && q != r
      ensures PhaseOk(records', w.clock, deliveries', w.relays[q])
    {
      OtherStaysOk(w.records, records', w.clock, w.relays[r].token, w.deliveries, deliveries', w.relays[q]);
    }
  }

  lemma RelayGone(w: World, r: nat, records': seq<OutboxRecord>, deliveries': seq<Delivery>)
    requires RelaysOk(w)
    requires forall q :: q in w.relays && q != r ==> PhaseOk(records', w.clock, deliveries', w.relays[q])
    ensures RelaysOk(w.(records := records', deliveries := deliveries', relays := w.relays - {r}))
  {
    hide PhaseOk;
  }

  lemma RelayMoved(w: World, r: nat, p: Phase, records': seq<OutboxRecord>, deliveries': seq<Delivery>)
    requires RelaysOk(w) && r in w.relays && p.token == w.relays[r].token
    requires forall q :: q in w.relays && q != r ==> PhaseOk(records', w.clock, deliveries', w.relays[q])
    requires PhaseOk(records', w.clock, deliveries', p)
    ensures RelaysOk(w.(records := records', deliveries := deliveries', relays := w.relays[r := p]))
  {
    hide PhaseOk;
  }

  /** `RelaysOk` does not look at the other logs. */
  lemma SameRelays(w: World, w': World)
    requires RelaysOk(w)
    requires w'.relays == w.relays && w'.records == w.records && w'.clock == w.clock
             && w'.deliveries == w.deliveries && w'.issued == w.issued
    ensures RelaysOk(w')
  {
  }

  lemma TouchesSame(records: seq<OutboxRecord>, clock: Instant, token: string)
    ensures Touches(records, records, clock, token)
  {
  }

  // ---------------------------------------------------------- the simple steps

  lemma TodoLater(records: seq<OutboxRecord>, clock: Instant, later: Instant, token: string, until: Instant, todo: seq<OutboxRecord>)
    requires TodoOk(records, clock, token, until, todo) && clock <= later
    ensures TodoOk(records, later, token, until, todo)
  {
    forall k | 0 <= k < |todo|
      ensures Owned(records[todo[k].sequence - 1], later, token, until, todo[k])
    {
      assert Owned(records[todo[k].sequence - 1], clock, token, until, todo[k]);
    }
  }

  lemma PhaseLater(records: seq<OutboxRecord>, clock: Instant, later: Instant, deliveries: seq<Delivery>, p: Phase)
    requires PhaseOk(records, clock, deliveries, p) && clock <= later
    ensures PhaseOk(records, later, deliveries, p)
  {
    hide TodoOk;
    if !p.Started? && !p.Checked? {
      TodoLater(records, clock, later, p.token, p.until, p.todo);
    }
  }

  lemma TickKeeps(policy: Policy, w: World, to: Instant)
    requires Inv(policy, w) && w.clock <= to
    ensures Inv(policy, w.(clock := to))
  {
    hide PhaseOk, AcksOk, FailuresOk, DeliveriesOk, RecordsOk;
    forall r | r in w.relays
      ensures PhaseOk(w.records, to, w.deliveries, w.relays[r])
    {
      PhaseLater(w.records, w.clock, to, w.deliveries, w.relays[r]);
    }
  }

  lemma {:induction false} NoFailuresYet(failures: seq<Failure>, q: int)
    requires forall k :: 0 <= k < |failures| ==> failures[k].sequence < q
    ensures FailuresOf(failures, q) == []
  {
    if failures != [] {
      NoFailuresYet(failures[..|failures| - 1], q);
    }
  }

  lemma AppendKeepsFailures(policy: Policy, records: seq<OutboxRecord>, failures: seq<Failure>, events: seq<Event>)
    requires FailuresOk(policy, records, failures)
    ensures FailuresOk(policy, Enqueue(records, |records|, events), failures)
  {
    var all := Enqueue(records, |records|, events);
    forall i | 0 <= i < |all|
      ensures Scheduled(policy, all[i], FailuresOf(failures, i + 1))
    {
      if i < |records| {
        assert Scheduled(policy, records[i], FailuresOf(failures, i + 1));
      } else {
        NoFailuresYet(failures, i + 1);
      }
    }
  }

  lemma AppendKeepsPhase(records: seq<OutboxRecord>, clock: Instant, deliveries: seq<Delivery>, p: Phase, events: seq<Event>)
    requires PhaseOk(records, clock, deliveries, p)
    ensures PhaseOk(Enqueue(records, |records|, events), clock, deliveries, p)
  {
    var all := Enqueue(records, |records|, events);
    assert forall i :: 0 <= i < |records| ==> all[i] == records[i];
  }

  lemma AppendKeeps(policy: Policy, w: World, events: seq<Event>)
    requires Inv(policy, w)
    ensures Inv(policy, w.(records := Enqueue(w.records, |w.records|, events)))
    ensures Forward(w.records, Enqueue(w.records, |w.records|, events))
  {
    hide PhaseOk, AcksOk, FailuresOk;
    var all := Enqueue(w.records, |w.records|, events);
    AcksCarryOver(w.records, all, w.deliveries, w.acked);
    AppendKeepsFailures(policy, w.records, w.failures, events);
    forall r | r in w.relays
      ensures PhaseOk(all, w.clock, w.deliveries, w.relays[r])
    {
      AppendKeepsPhase(w.records, w.clock, w.deliveries, w.relays[r], events);
    }
  }

  lemma StartKeeps(policy: Policy, w: World, a: Step)
    requires a.Start? && Inv(policy, w) && Enabled(w, a)
    ensures Inv(policy, Apply(policy, w, a))
  {
    hide AcksOk, FailuresOk, DeliveriesOk;
    var p := Started(a.limit, a.token, w.clock + policy.ttl);
    assert Unused(w.records, a.token);
    hide PhaseOk;
    assert PhaseOk(w.records, w.clock, w.deliveries, p) by { StartedOk(w.records, w.clock, w.deliveries, p); }
  }

  lemma StartedOk(records: seq<OutboxRecord>, clock: Instant, deliveries: seq<Delivery>, p: Phase)
    requires (p.Started? || p.Checked?) && p.token != "" && Unused(records, p.token)
    ensures PhaseOk(records, clock, deliveries, p)
  {
  }

  lemma CheckKeeps(policy: Policy, w: World, a: Step)
    requires a.Check? && Inv(policy, w) && Enabled(w, a)
    ensures Inv(policy, Apply(policy, w, a))
  {
    var p := w.relays[a.relay];
    assert PhaseOk(w.records, w.clock, w.deliveries, p);
    hide AcksOk, FailuresOk, DeliveriesOk, RecordsOk, PhaseOk, Unused;
    if p.until <= w.clock {
      RelayGone(w, a.relay, w.records, w.deliveries);
    } else {
      var p' := Checked(p.limit, p.token, p.until, w.clock);
      StartedOk(w.records, w.clock, w.deliveries, p');
      RelayMoved(w, a.relay, p', w.records, w.deliveries);
    }
  }

  lemma StopKeeps(policy: Policy, w: World, r: nat)
    requires Inv(policy, w)
    ensures Inv(policy, w.(relays := w.relays - {r}))
  {
    hide AcksOk, FailuresOk, DeliveriesOk, RecordsOk, PhaseOk;
    RelayGone(w, r, w.records, w.deliveries);
  }

  // ------------------------------------------------------------------- taking

  lemma ClaimTouches(records: seq<OutboxRecord>, issued: set<string>, readAt: Instant, clock: Instant, n: nat, token: string, until: Instant)
    requires RecordsOk(records, issued) && readAt <= clock && token != ""
    ensures Touches(records, Claim(records, readAt, n, token, until), clock, token)
    ensures var after := Claim(records, readAt, n, token, until);
            forall i :: 0 <= i < |records| ==>
              after[i].published == records[i].published && after[i].attempts == records[i].attempts
              && after[i].availableAt == records[i].availableAt && after[i].event == records[i].event
  {
    var after := Claim(records, readAt, n, token, until);
    forall i | 0 <= i < |records|
      ensures Changed(records[i], after[i], clock, token)
      ensures after[i].published == records[i].published && after[i].attempts == records[i].attempts
              && after[i].availableAt == records[i].availableAt && after[i].event == records[i].event
    {
      ClaimTouchesOnlyEligible(records, readAt, n, token, until, i);
      assert RecordOk(records[i]);
    }
  }

  lemma TakenIsOwned(records: seq<OutboxRecord>, readAt: Instant, clock: Instant, n: nat, token: string, until: Instant, k: nat)
    requires Numbered(records) && Unused(records, token) && token != ""
    requires k < |Scan(records, readAt, n)|
    ensures var x := StampAll(Scan(records, readAt, n), token, until)[k];
            1 <= x.sequence <= |records| && Owned(Claim(records, readAt, n, token, until)[x.sequence - 1], clock, token, until, x)
  {
    var found := Scan(records, readAt, n);
    ScanTakesTheFirstEligible(records, readAt, n);
    assert found[k] in found;
    var i :| 0 <= i < |records| && records[i] == found[k];
    forall r | r in records
      ensures !Held(r, token)
    {
    }
    ClaimStampsTheScan(records, readAt, n, token, until, i);
    ClaimTouchesOnlyEligible(records, readAt, n, token, until, i);
  }

  lemma TakenIsTodo(records: seq<OutboxRecord>, readAt: Instant, clock: Instant, n: nat, token: string, until: Instant)
    requires Numbered(records) && Unused(records, token) && token != "" && Scan(records, readAt, n) != []
    ensures TodoOk(Claim(records, readAt, n, token, until), clock, token, until, StampAll(Scan(records, readAt, n), token, until))
  {
    hide Owned, Unused;
    ScanAscends(records, readAt, n);
    var todo := StampAll(Scan(records, readAt, n), token, until);
    forall k | 0 <= k < |todo|
      ensures 1 <= todo[k].sequence <= |records|
      ensures Owned(Claim(records, readAt, n, token, until)[todo[k].sequence - 1], clock, token, until, todo[k])
    {
      TakenIsOwned(records, readAt, clock, n, token, until, k);
    }
  }

  lemma TakeKeeps(policy: Policy, w: World, a: Step)
    requires a.Take? && Inv(policy, w) && Enabled(w, a)
    ensures Inv(policy, Apply(policy, w, a)) && Forward(w.records, Apply(policy, w, a).records)
  {
    var p := w.relays[a.relay];
    assert PhaseOk(w.records, w.clock, w.deliveries, p);
    var n := EffectiveLimit(p.limit);
    var after := Claim(w.records, a.readAt, n, p.token, p.until);
    var found := StampAll(Scan(w.records, a.readAt, n), p.token, p.until);
    ClaimTouches(w.records, w.issued, a.readAt, w.clock, n, p.token, p.until);
    assert Numbered(w.records);
    hide AcksOk, FailuresOk, RecordsOk, PhaseOk, Touches, Claim, Scan, TodoOk, Numbered, Unused, Forward;
    TouchesForward(w.records, after, w.clock, p.token);
    TouchesKeepsRecords(w.records, after, w.clock, p.token, w.issued);
    AcksCarryOver(w.records, after, w.deliveries, w.acked);
    FailuresCarryOver(policy, w.records, after, w.failures);
    OthersAfter(w, a.relay, after, w.deliveries);
    if found == [] {
      RelayGone(w, a.relay, after, w.deliveries);
    } else {
      TakenIsTodo(w.records, a.readAt, w.clock, n, p.token, p.until);
      WorkingOk(after, w.clock, w.deliveries, p.token, p.until, found);
      RelayMoved(w, a.relay, Working(p.token, p.until, found), after, w.deliveries);
    }
  }

  lemma WorkingOk(records: seq<OutboxRecord>, clock: Instant, deliveries: seq<Delivery>, token: string, until: Instant, todo: seq<OutboxRecord>)
    requires TodoOk(records, clock, token, until, todo) && token != ""
    ensures PhaseOk(records, clock, deliveries, Working(token, until, todo))
  {
  }

  // --------------------------------------------------------------- publishing

  lemma DeliveryLogged(records: seq<OutboxRecord>, deliveries: seq<Delivery>, acked: map<int, nat>, d: Delivery)
    requires AcksOk(records, deliveries, acked) && DeliveriesOk(|records|, deliveries)
    requires d.mark.None? && 1 <= d.sequence <= |records|
    ensures AcksOk(records, deliveries + [d], acked) && DeliveriesOk(|records|, deliveries + [d])
  {
  }

  lemma PublishKeeps(policy: Policy, w: World, a: Step)
    requires a.Publish? && Inv(policy, w) && Enabled(w, a)
    ensures Inv(policy, Apply(policy, w, a)) && Apply(policy, w, a).records == w.records
  {
    var p := w.relays[a.relay];
    assert PhaseOk(w.records, w.clock, w.deliveries, p);
    TouchesSame(w.records, w.clock, p.token);
    hide AcksOk, DeliveriesOk, FailuresOk, RecordsOk, Touches;
    if a.error.None? {
      var d := Delivery(p.todo[0].sequence, p.token, p.until, w.clock, None);
      DeliveryLogged(w.records, w.deliveries, w.acked, d);
      var p' := Delivered(p.token, p.until, p.todo, |w.deliveries|);
      assert PhaseOk(w.records, w.clock, w.deliveries + [d], p');
      hide PhaseOk;
      OthersAfter(w, a.relay, w.records, w.deliveries + [d]);
      RelayMoved(w, a.relay, p', w.records, w.deliveries + [d]);
    } else {
      var p' := Undelivered(p.token, p.until, p.todo, a.error.value, w.clock);
      assert PhaseOk(w.records, w.clock, w.deliveries, p');
      hide PhaseOk;
      OthersAfter(w, a.relay, w.records, w.deliveries);
      RelayMoved(w, a.relay, p', w.records, w.deliveries);
    }
  }

  // ---------------------------------------------------------------- reporting

  /** Changing the record at the head of the list leaves the rest of it owned. */
  lemma RestStillOwned(records: seq<OutboxRecord>, clock: Instant, token: string, until: Instant, todo: seq<OutboxRecord>, r': OutboxRecord)
    requires TodoOk(records, clock, token, until, todo) && |todo| > 1
    ensures TodoOk(records[todo[0].sequence - 1 := r'], clock, token, until, todo[1..])
  {
    var rest := todo[1..];
    forall k | 0 <= k < |rest|
      ensures 1 <= rest[k].sequence <= |records|
      ensures Owned(records[todo[0].sequence - 1 := r'][rest[k].sequence - 1], clock, token, until, rest[k])
    {
      assert rest[k] == todo[k + 1] && todo[0].sequence < todo[k + 1].sequence;
    }
  }

  lemma OneTouched(records: seq<OutboxRecord>, clock: Instant, token: string, i: nat, r': OutboxRecord)
    requires i < |records| && Changed(records[i], r', clock, token)
    ensures Touches(records, records[i := r'], clock, token)
  {
  }

  lemma MarkLogged(n: nat, deliveries: seq<Delivery>, d: nat, m: Mark)
    requires DeliveriesOk(n, deliveries) && d < |deliveries| && (m.at < deliveries[d].until ==> m.ok)
    ensures DeliveriesOk(n, deliveries[d := deliveries[d].(mark := Some(m))])
  {
    var after := deliveries[d := deliveries[d].(mark := Some(m))];
    forall k | 0 <= k < |after|
      ensures DeliveryOk(n, after[k])
    {
      assert DeliveryOk(n, deliveries[k]);
    }
  }

  lemma RefusalLogged(records: seq<OutboxRecord>, deliveries: seq<Delivery>, acked: map<int, nat>, d: nat, at: Instant)
    requires AcksOk(records, deliveries, acked) && d < |deliveries| && deliveries[d].mark.None?
    ensures AcksOk(records, deliveries[d := deliveries[d].(mark := Some(Mark(at, false)))], acked)
  {
    var after := deliveries[d := deliveries[d].(mark := Some(Mark(at, false)))];
    assert forall k :: 0 <= k < |after| && Acked(after[k]) ==> k != d && Acked(deliveries[k]);
    assert forall q :: q in acked ==> acked[q] != d;
  }

  lemma AckLogged(records: seq<OutboxRecord>, deliveries: seq<Delivery>, acked: map<int, nat>, d: nat, at: Instant)
    requires AcksOk(records, deliveries, acked) && d < |deliveries| && deliveries[d].mark.None?
    requires 1 <= deliveries[d].sequence <= |records| && !records[deliveries[d].sequence - 1].published
    ensures var q := deliveries[d].sequence;
            AcksOk(records[q - 1 := Published(records[q - 1], at)],
                   deliveries[d := deliveries[d].(mark := Some(Mark(at, true)))], acked[q := d])
  {
    var q := deliveries[d].sequence;
    var after := deliveries[d := deliveries[d].(mark := Some(Mark(at, true)))];
    assert q !in acked;
    assert forall k :: 0 <= k < |after| && k != d ==> after[k] == deliveries[k];
    assert forall k :: 0 <= k < |deliveries| && Acked(deliveries[k]) ==> deliveries[k].sequence != q;
  }

  /** Before its claim runs out, a relay still holds what it has to report. */
  lemma HeldInTime(records: seq<OutboxRecord>, clock: Instant, token: string, until: Instant, todo: seq<OutboxRecord>)
    requires TodoOk(records, clock, token, until, todo) && token != ""
    ensures var r := records[todo[0].sequence - 1];
            && (clock < until ==> Held(r, token))
            && (Held(r, token) ==> !r.published && r.claimedUntil == Some(until) && r.attempts == todo[0].attempts)
  {
    assert Owned(records[todo[0].sequence - 1], clock, token, until, todo[0]);
  }

  lemma OnwardKeeps(w: World, r: nat, records': seq<OutboxRecord>, deliveries': seq<Delivery>, token: string, until: Instant, todo: seq<OutboxRecord>)
    requires RelaysOk(w) && r in w.relays && token == w.relays[r].token != ""
    requires |todo| > 1 ==> TodoOk(records', w.clock, token, until, todo[1..])
    requires forall q :: q in w.relays && q != r ==> PhaseOk(records', w.clock, deliveries', w.relays[q])
    ensures RelaysOk(Onward(w, r, token, until, todo).(records := records', deliveries := deliveries'))
  {
    hide PhaseOk, TodoOk;
    if |todo| <= 1 {
      RelayGone(w, r, records', deliveries');
    } else {
      WorkingOk(records', w.clock, deliveries', token, until, todo[1..]);
      RelayMoved(w, r, Working(token, until, todo[1..]), records', deliveries');
    }
  }

  /** What changing the head of its list means for a relay and for the others. */
  lemma HeadChanged(w: World, r: nat, rec': OutboxRecord, deliveries': seq<Delivery>)
    requires RecordsOk(w.records, w.issued) && RelaysOk(w) && r in w.relays && !w.relays[r].Started? && !w.relays[r].Checked?
    requires TodoOk(w.records, w.clock, w.relays[r].token, w.relays[r].until, w.relays[r].todo) && w.relays[r].token != ""
    requires Changed(w.records[w.relays[r].todo[0].sequence - 1], rec', w.clock, w.relays[r].token)
    requires |w.deliveries| <= |deliveries'|
    requires forall d :: 0 <= d < |w.deliveries| && w.deliveries[d].token != w.relays[r].token ==> deliveries'[d] == w.deliveries[d]
    ensures var p := w.relays[r]; var records' := w.records[p.todo[0].sequence - 1 := rec'];
            && Forward(w.records, records') && RecordsOk(records', w.issued)
            && RelaysOk(Onward(w, r, p.token, p.until, p.todo).(records := records', deliveries := deliveries'))
  {
    var p := w.relays[r];
    var i := p.todo[0].sequence - 1;
    var records' := w.records[i := rec'];
    assert p.token in w.issued;
    OneTouched(w.records, w.clock, p.token, i, rec');
    hide Forward, RecordsOk, Touches, PhaseOk;
    TouchesForward(w.records, records', w.clock, p.token);
    TouchesKeepsRecords(w.records, records', w.clock, p.token, w.issued);
    OthersAfter(w, r, records', deliveries');
    if |p.todo| > 1 {
      RestStillOwned(w.records, w.clock, p.token, p.until, p.todo, rec');
    }
    hide TodoOk;
    OnwardKeeps(w, r, records', deliveries', p.token, p.until, p.todo);
  }

  lemma AcknowledgedIs(w: World, r: nat)
    requires r in w.relays && w.relays[r].Delivered? && w.relays[r].todo != []
    requires PhaseOk(w.records, w.clock, w.deliveries, w.relays[r])
    requires Held(w.records[w.relays[r].todo[0].sequence - 1], w.relays[r].token)
    ensures var p := w.relays[r]; var q, d := p.todo[0].sequence, p.delivery; var rec := w.records[q - 1];
            && TodoOk(w.records, w.clock, p.token, p.until, p.todo) && p.token != ""
            && Changed(rec, Published(rec, w.clock), w.clock, p.token)
            && d < |w.deliveries| && w.deliveries[d].mark.None? && w.deliveries[d].token == p.token
            && w.deliveries[d].sequence == q && !rec.published
            && Acknowledge(w, r) == Onward(w, r, p.token, p.until, p.todo).(
                 records := w.records[q - 1 := Published(rec, w.clock)],
                 deliveries := w.deliveries[d := w.deliveries[d].(mark := Some(Mark(w.clock, true)))],
                 acked := w.acked[q := d])
  {
    HeldInTime(w.records, w.clock, w.relays[r].token, w.relays[r].until, w.relays[r].todo);
  }

  lemma OnwardFrame(w: World, r: nat, token: string, until: Instant, todo: seq<OutboxRecord>)
    ensures Onward(w, r, token, until, todo) == w.(relays := Onward(w, r, token, until, todo).relays)
  {
  }

  lemma AcknowledgedKeeps(policy: Policy, w: World, r: nat)
    requires Inv(policy, w) && r in w.relays && w.relays[r].Delivered?
    requires PhaseOk(w.records, w.clock, w.deliveries, w.relays[r]) && w.relays[r].todo != []
    requires Held(w.records[w.relays[r].todo[0].sequence - 1], w.relays[r].token)
    ensures Inv(policy, Acknowledge(w, r)) && Forward(w.records, Acknowledge(w, r).records)
  {
    AcknowledgedIs(w, r);
    var p := w.relays[r];
    var q, d := p.todo[0].sequence, p.delivery;
    assert 1 <= q <= |w.records|;
    var rec' := Published(w.records[q - 1], w.clock);
    var after := w.deliveries[d := w.deliveries[d].(mark := Some(Mark(w.clock, true)))];
    OnwardFrame(w, r, p.token, p.until, p.todo);
    hide AcksOk, FailuresOk, RecordsOk, Forward, DeliveriesOk, TodoOk, RelaysOk, PhaseOk, Acknowledge, Onward, Changed;
    HeadChanged(w, r, rec', after);
    MarkLogged(|w.records|, w.deliveries, d, Mark(w.clock, true));
    AckLogged(w.records, w.deliveries, w.acked, d, w.clock);
    FailuresCarryOver(policy, w.records, w.records[q - 1 := rec'], w.failures);
    SameRelays(Onward(w, r, p.token, p.until, p.todo).(records := w.records[q - 1 := rec'], deliveries := after), Acknowledge(w, r));
  }

  lemma RelayRefused(w: World, r: nat, d: nat, m: Mark)
    requires RelaysOk(w) && r in w.relays && d < |w.deliveries| && w.deliveries[d].token == w.relays[r].token
    ensures RelaysOk(w.(deliveries := w.deliveries[d := w.deliveries[d].(mark := Some(m))], relays := w.relays - {r}))
  {
    hide RelaysOk, PhaseOk, Touches;
    var after := w.deliveries[d := w.deliveries[d].(mark := Some(m))];
    TouchesSame(w.records, w.clock, w.relays[r].token);
    OthersAfter(w, r, w.records, after);
    RelayGone(w, r, w.records, after);
  }

  lemma RefusedIs(w: World, r: nat)
    requires r in w.relays && w.relays[r].Delivered? && w.relays[r].todo != []
    requires PhaseOk(w.records, w.clock, w.deliveries, w.relays[r])
    requires !Held(w.records[w.relays[r].todo[0].sequence - 1], w.relays[r].token)
    ensures var d := w.relays[r].delivery;
            && d < |w.deliveries| && w.deliveries[d].mark.None? && w.deliveries[d].token == w.relays[r].token
            && w.relays[r].until == w.deliveries[d].until && w.relays[r].until <= w.clock
            && Acknowledge(w, r) == w.(deliveries := w.deliveries[d := w.deliveries[d].(mark := Some(Mark(w.clock, false)))],
                                       relays := w.relays - {r})
  {
    HeldInTime(w.records, w.clock, w.relays[r].token, w.relays[r].until, w.relays[r].todo);
    hide TodoOk;
  }

  lemma RefusedKeeps(policy: Policy, w: World, r: nat)
    requires Inv(policy, w) && r in w.relays && w.relays[r].Delivered?
    requires PhaseOk(w.records, w.clock, w.deliveries, w.relays[r]) && w.relays[r].todo != []
    requires !Held(w.records[w.relays[r].todo[0].sequence - 1], w.relays[r].token)
    ensures Inv(policy, Acknowledge(w, r)) && Forward(w.records, Acknowledge(w, r).records)
  {
    RefusedIs(w, r);
    var d := w.relays[r].delivery;
    TouchesSame(w.records, w.clock, w.relays[r].token);
    hide AcksOk, FailuresOk, RecordsOk, RelaysOk, Touches, Forward, DeliveriesOk, PhaseOk, Acknowledge, Held;
    TouchesForward(w.records, w.records, w.clock, w.relays[r].token);
    MarkLogged(|w.records|, w.deliveries, d, Mark(w.clock, false));
    RefusalLogged(w.records, w.deliveries, w.acked, d, w.clock);
    RelayRefused(w, r, d, Mark(w.clock, false));
  }

  lemma FailureLogged(policy: Policy, records: seq<OutboxRecord>, failures: seq<Failure>, q: int, lastError: string, at: Instant)
    requires FailuresOk(policy, records, failures) && 1 <= q <= |records|
    ensures var r' := Failed(records[q - 1], lastError, at + Backoff(policy, records[q - 1].attempts + 1));
            FailuresOk(policy, records[q - 1 := r'], failures + [Failure(q, at)])
  {
    var r' := Failed(records[q - 1], lastError, at + Backoff(policy, records[q - 1].attempts + 1));
    var after, log := records[q - 1 := r'], failures + [Failure(q, at)];
    assert log[..|log| - 1] == failures;
    forall i | 0 <= i < |after|
      ensures Scheduled(policy, after[i], FailuresOf(log, i + 1))
    {
      assert Scheduled(policy, records[i], FailuresOf(failures, i + 1));
      assert i + 1 != q ==> FailuresOf(failures, i + 1) + [] == FailuresOf(failures, i + 1);
    }
  }

  lemma PutBackKeeps(policy: Policy, w: World, r: nat)
    requires Inv(policy, w) && r in w.relays && w.relays[r].Undelivered?
    requires PhaseOk(w.records, w.clock, w.deliveries, w.relays[r]) && w.relays[r].todo != []
    requires Held(w.records[w.relays[r].todo[0].sequence - 1], w.relays[r].token)
    ensures Inv(policy, PutBack(policy, w, r)) && Forward(w.records, PutBack(policy, w, r).records)
  {
    var p := w.relays[r];
    var q := p.todo[0].sequence;
    HeldInTime(w.records, w.clock, p.token, p.until, p.todo);
    var rec := w.records[q - 1];
    hide AcksOk, FailuresOk, RecordsOk, Forward, DeliveriesOk, TodoOk, Backoff, RelaysOk;
    var rec' := Failed(rec, p.lastError, p.failedAt + Backoff(policy, rec.attempts + 1));
    var records' := w.records[q - 1 := rec'];
    HeadChanged(w, r, rec', w.deliveries);
    AcksCarryOver(w.records, records', w.deliveries, w.acked);
    FailureLogged(policy, w.records, w.failures, q, p.lastError, p.failedAt);
    SameRelays(Onward(w, r, p.token, p.until, p.todo).(records := records', deliveries := w.deliveries), PutBack(policy, w, r));
  }

  lemma NotPutBackKeeps(policy: Policy, w: World, r: nat)
    requires Inv(policy, w) && r in w.relays && w.relays[r].Undelivered?
    requires PhaseOk(w.records, w.clock, w.deliveries, w.relays[r]) && w.relays[r].todo != []
    requires !Held(w.records[w.relays[r].todo[0].sequence - 1], w.relays[r].token)
    ensures Inv(policy, PutBack(policy, w, r)) && Forward(w.records, PutBack(policy, w, r).records)
  {
    hide PhaseOk, Backoff;
    StopKeeps(policy, w, r);
    hide Inv;
  }

  // ----------------------------------------------------------------- together

  lemma StepKeeps(policy: Policy, w: World, a: Step)
    requires Inv(policy, w) && Enabled(w, a)
    ensures Inv(policy, Apply(policy, w, a)) && Forward(w.records, Apply(policy, w, a).records)
  {
    assert Forward(w.records, w.records);
    hide Forward;
    match a
    case Tick(to) => hide Inv; TickKeeps(policy, w, to);
    case Append(events) => hide Inv; AppendKeeps(policy, w, events);
    case Start(_, _, _) => hide Inv; StartKeeps(policy, w, a);
    case Check(_) => hide Inv; CheckKeeps(policy, w, a);
    case Take(_, _) => hide Inv; TakeKeeps(policy, w, a);
    case Publish(_, _) => hide Inv; PublishKeeps(policy, w, a);
    case Report(r) =>
      assert PhaseOk(w.records, w.clock, w.deliveries, w.relays[r]);
      var held := Held(w.records[w.relays[r].todo[0].sequence - 1], w.relays[r].token);
      hide Inv, PhaseOk, Acknowledge, PutBack;
      if w.relays[r].Delivered? {
        if held { AcknowledgedKeeps(policy, w, r); } else { RefusedKeeps(policy, w, r); }
      } else {
        if held { PutBackKeeps(policy, w, r); } else { NotPutBackKeeps(policy, w, r); }
      }
    case Stop(r) => hide Inv; StopKeeps(policy, w, r);
  }

  lemma {:induction false} RunKeeps(policy: Policy, w: World, steps: seq<Step>)
    requires Inv(policy, w) && Runs(policy, w, steps)
    ensures Inv(policy, Run(policy, w, steps)) && Forward(w.records, Run(policy, w, steps).records)
    decreases steps
  {
    if steps == [] {
      hide Inv;
    } else {
      hide Inv, Forward, Apply, Enabled;
      StepKeeps(policy, w, steps[0]);
      var w1 := Apply(policy, w, steps[0]);
      RunKeeps(policy, w1, steps[1..]);
      ForwardTransitive(w.records, w1.records, Run(policy, w1, steps[1..]).records);
    }
  }
}
