/** What holds of every run of any number of relays over one outbox, with events
    being appended all the while and relays stopping anywhere. */
module RelaySafety {
  import opened Wrappers
  import opened Instants
  import opened Rail
  import opened Events
  import opened Outbox
  import opened Retry
  import opened Relays
  import opened RelaySteps

  ghost function Reach(policy: Policy, steps: seq<Step>): World
    requires Runs(policy, INITIAL, steps)
  {
    Run(policy, INITIAL, steps)
  }

  lemma ReachKeeps(policy: Policy, steps: seq<Step>)
    requires Runs(policy, INITIAL, steps)
    ensures Inv(policy, Reach(policy, steps))
  {
    hide Inv, Runs, Forward;
    InitialInv(policy);
    RunKeeps(policy, INITIAL, steps);
  }

  /** Sequence numbers are exactly 1..n, stored events never change, and a
      published record is frozen for good. */
  lemma OutboxMovesForward(policy: Policy, steps: seq<Step>, more: seq<Step>)
    requires Runs(policy, INITIAL, steps) && Runs(policy, Reach(policy, steps), more)
    ensures Numbered(Reach(policy, steps).records)
    ensures var a := Reach(policy, steps).records; var b := Run(policy, Reach(policy, steps), more).records;
            && |a| <= |b|
            && forall i :: 0 <= i < |a| ==> b[i].event == a[i].event && (a[i].published ==> b[i] == a[i])
  {
    hide Runs, Reach;
    ReachKeeps(policy, steps);
    RunKeeps(policy, Reach(policy, steps), more);
  }

  /** A record is published exactly when one delivery of it was acknowledged, and
      then exactly one was. */
  lemma PublishedIffAckedOnce(policy: Policy, steps: seq<Step>, i: nat)
    requires Runs(policy, INITIAL, steps) && i < |Reach(policy, steps).records|
    ensures var w := Reach(policy, steps);
            w.records[i].published <==>
              exists d :: 0 <= d < |w.deliveries| && w.deliveries[d].sequence == i + 1 && Acked(w.deliveries[d])
                && forall e :: 0 <= e < |w.deliveries| && w.deliveries[e].sequence == i + 1 && Acked(w.deliveries[e]) ==> e == d
  {
    hide Runs, Reach, FailuresOk, RelaysOk;
    ReachKeeps(policy, steps);
    var w := Reach(policy, steps);
    if w.records[i].published {
      var d := w.acked[i + 1];
      assert w.deliveries[d].sequence == i + 1 && Acked(w.deliveries[d]);
      forall e | 0 <= e < |w.deliveries| && w.deliveries[e].sequence == i + 1 && Acked(w.deliveries[e])
        ensures e == d
      {
        assert w.acked[w.deliveries[e].sequence] == e;
      }
    }
  }

  /** A relay that reports before its claim runs out is never refused, whatever
      the other relays did in the meantime. */
  lemma ReportInTimeSucceeds(policy: Policy, steps: seq<Step>, r: nat)
    requires Runs(policy, INITIAL, steps)
    requires var w := Reach(policy, steps);
             r in w.relays && (w.relays[r].Delivered? || w.relays[r].Undelivered?) && w.clock < w.relays[r].until
    ensures var w := Reach(policy, steps); var p := w.relays[r];
            && p.todo != []
            && MarkPublished(w.records, p.todo[0].sequence, p.token, w.clock).Ok?
            && forall text, at :: MarkFailed(w.records, p.todo[0].sequence, p.token, text, at).Ok?
  {
    hide Runs, Reach, AcksOk, FailuresOk, DeliveriesOk, RecordsOk;
    ReachKeeps(policy, steps);
    var w := Reach(policy, steps);
    var p := w.relays[r];
    assert PhaseOk(w.records, w.clock, w.deliveries, p);
    HeldInTime(w.records, w.clock, p.token, p.until, p.todo);
  }

  /** If every delivery of a record was reported before its claim ran out, the
      record was delivered at most once. */
  lemma NoDoubleDelivery(policy: Policy, steps: seq<Step>, d: nat, e: nat)
    requires Runs(policy, INITIAL, steps)
    requires var ds := Reach(policy, steps).deliveries;
             && d < |ds| && e < |ds| && ds[d].sequence == ds[e].sequence
             && ds[d].mark.Some? && ds[d].mark.value.at < ds[d].until
             && ds[e].mark.Some? && ds[e].mark.value.at < ds[e].until
    ensures d == e
  {
    hide Runs, Reach, FailuresOk, RelaysOk;
    ReachKeeps(policy, steps);
    var w := Reach(policy, steps);
    assert DeliveryOk(|w.records|, w.deliveries[d]) && DeliveryOk(|w.records|, w.deliveries[e]);
    assert w.acked[w.deliveries[d].sequence] == d && w.acked[w.deliveries[e].sequence] == e;
  }

  /** The k-th recorded failure of a record, at time f, keeps it unclaimable until
      exactly f + backoff(k): not a moment less, and, once it is unpublished and
      unclaimed, not a moment more. */
  lemma RetryWaitsTheBackoff(policy: Policy, steps: seq<Step>, i: nat, at: Instant)
    requires Runs(policy, INITIAL, steps) && i < |Reach(policy, steps).records|
    ensures var w := Reach(policy, steps); var r := w.records[i]; var failed := FailuresOf(w.failures, i + 1);
            && r.attempts == |failed|
            && (failed != [] ==>
                  var free := failed[|failed| - 1] + Backoff(policy, |failed|);
                  && (at < free ==> !Eligible(r, at))
                  && (!r.published && r.claimedUntil.None? ==> (Eligible(r, at) <==> free <= at)))
  {
    hide Runs, Reach, AcksOk, RelaysOk, DeliveriesOk, RecordsOk, Backoff;
    ReachKeeps(policy, steps);
    var w := Reach(policy, steps);
    assert Scheduled(policy, w.records[i], FailuresOf(w.failures, i + 1));
  }
}
